/** The list and total queries (contracts/core/src/query.rs) against a plain scan of the invoice map. */
module Queries {
  import opened Common
  import opened State
  import opened Invariants

  datatype ContactResponse = ContactResponse(name: string, address: Addr, companyName: string)
  datatype InvoiceResponse = InvoiceResponse(invoice: Invoice, contact: ContactResponse)
  datatype RequestResponse = RequestResponse(sent: seq<InvoiceResponse>, received: seq<InvoiceResponse>)

  // ---------------------------------------------------------------- invoice lists

  /** The invoices of an id list that are paid, or that are not, in list order; unknown ids are skipped. */
  function Listed(invoices: map<U64, Invoice>, ids: seq<U64>, paid: bool): seq<Invoice> {
    if ids == [] then []
    else if ids[0] in invoices && (invoices[ids[0]].status == Paid) == paid
    then [invoices[ids[0]]] + Listed(invoices, ids[1..], paid)
    else Listed(invoices, ids[1..], paid)
  }

  lemma {:induction false} ListedAppend(invoices: map<U64, Invoice>, a: seq<U64>, b: seq<U64>, paid: bool)
    ensures Listed(invoices, a + b, paid) == Listed(invoices, a, paid) + Listed(invoices, b, paid)
    decreases |a|
  {
    if a == [] {
      assert a + b == b;
    } else {
      assert (a + b)[1..] == a[1..] + b;
      ListedAppend(invoices, a[1..], b, paid);
    }
  }

  lemma ListedNext(invoices: map<U64, Invoice>, ids: seq<U64>, i: nat, paid: bool)
    requires i < |ids|
    ensures Listed(invoices, ids[..i + 1], paid) ==
            if ids[i] in invoices && (invoices[ids[i]].status == Paid) == paid
            then Listed(invoices, ids[..i], paid) + [invoices[ids[i]]] else Listed(invoices, ids[..i], paid)
  {
    assert ids[..i + 1] == ids[..i] + [ids[i]];
    assert [ids[i]][1..] == [];
    ListedAppend(invoices, ids[..i], [ids[i]], paid);
  }

  lemma {:induction false} ListedAreStored(invoices: map<U64, Invoice>, ids: seq<U64>, paid: bool)
    ensures forall x :: x in Listed(invoices, ids, paid) ==> x in invoices.Values && (x.status == Paid) == paid
    decreases |ids|
  {
    if ids == [] {
    } else {
      ListedAreStored(invoices, ids[1..], paid);
    }
  }

  /** The other party of an invoice, seen from one side. */
  function Counterparty(invoice: Invoice, side: Side): Addr {
    Party(invoice, if side == Receivable then Payable else Receivable)
  }

  /** What a response tells about a profile. */
  predicate Describes(contact: ContactResponse, info: ContactInfo) {
    contact.name == info.name && contact.address == info.owner && contact.companyName == info.companyName
  }

  function ContactOf(info: ContactInfo): (contact: ContactResponse)
    ensures Describes(contact, info)
  {
    ContactResponse(info.name, info.owner, info.companyName)
  }

  predicate AllKnown(profiles: map<Addr, ContactInfo>, list: seq<Invoice>, side: Side) {
    forall i :: 0 <= i < |list| ==> Counterparty(list[i], side) in profiles
  }

  function Responses(profiles: map<Addr, ContactInfo>, list: seq<Invoice>, side: Side): seq<InvoiceResponse>
    requires AllKnown(profiles, list, side)
  {
    seq(|list|, i requires 0 <= i < |list| =>
      InvoiceResponse(list[i], ContactOf(profiles[Counterparty(list[i], side)])))
  }

  /** One of the four loops: the invoices of one index with one kind of status, each with its counterparty. */
  method CollectInvoices(s: Storage, ids: seq<U64>, paid: bool, side: Side)
    returns (r: Result<seq<InvoiceResponse>, Error>)
    ensures r.Ok? <==> AllKnown(s.profiles, Listed(s.invoices, ids, paid), side)
    ensures r.Ok? ==> r.value == Responses(s.profiles, Listed(s.invoices, ids, paid), side)
    ensures r.Err? ==> r.error == NotFound
  {
    var responses: seq<InvoiceResponse> := [];
    for i := 0 to |ids|
      invariant AllKnown(s.profiles, Listed(s.invoices, ids[..i], paid), side)
      invariant responses == Responses(s.profiles, Listed(s.invoices, ids[..i], paid), side)
    {
      ListedNext(s.invoices, ids, i, paid);
      if ids[i] !in s.invoices {
        continue;
      }
      var invoice := s.invoices[ids[i]];
      if (invoice.status == Paid) == paid {
        var other := Counterparty(invoice, side);
        if other !in s.profiles {
          ghost var before := Listed(s.invoices, ids[..i + 1], paid);
          ListedAppend(s.invoices, ids[..i + 1], ids[i + 1..], paid);
          assert ids[..i + 1] + ids[i + 1..] == ids;
          assert Listed(s.invoices, ids, paid)[|before| - 1] == invoice;
          return Err(NotFound);
        }
        responses := responses + [InvoiceResponse(invoice, ContactOf(s.profiles[other]))];
      }
    }
    assert ids[..|ids|] == ids;
    return Ok(responses);
  }

  /** The answer to a pending (`paid` false) or executed (`paid` true) query. */
  function InvoiceAnswer(s: Store, address: Addr, paid: bool): Result<RequestResponse, Error> {
    if address !in s.profiles then Ok(RequestResponse([], []))
    else
      var sent := Listed(s.invoices, s.profiles[address].generatedInvoices, paid);
      var received := Listed(s.invoices, s.profiles[address].assignedInvoices, paid);
      if AllKnown(s.profiles, sent, Receivable) && AllKnown(s.profiles, received, Payable)
      then Ok(RequestResponse(Responses(s.profiles, sent, Receivable), Responses(s.profiles, received, Payable)))
      else Err(NotFound)
  }

  method GetInvoices(s: Storage, address: Addr, paid: bool) returns (r: Result<RequestResponse, Error>)
    ensures r == InvoiceAnswer(s.View(), address, paid)
  {
    if address !in s.profiles {
      return Ok(RequestResponse([], []));
    }
    var info := s.profiles[address];
    var sent := CollectInvoices(s, info.generatedInvoices, paid, Receivable);
    if sent.Err? {
      return Err(sent.error);
    }
    var received := CollectInvoices(s, info.assignedInvoices, paid, Payable);
    if received.Err? {
      return Err(received.error);
    }
    return Ok(RequestResponse(sent.value, received.value));
  }

  /** The responses are about the ids at the positions `at` of an index, in index order, each with the profile of the
      other party: the payee's for an invoice raised, the issuer's for one received. */
  ghost predicate RespondsAt(
    responses: seq<InvoiceResponse>, at: seq<nat>, ids: seq<U64>, invoices: map<U64, Invoice>,
    profiles: map<Addr, ContactInfo>, raised: bool)
  {
    && |at| == |responses|
    && (forall j, k :: 0 <= j < k < |at| ==> at[j] < at[k])
    && forall k :: 0 <= k < |at| ==>
         && at[k] < |ids| && ids[at[k]] in invoices && responses[k].invoice == invoices[ids[at[k]]]
         && var other := if raised then responses[k].invoice.payeeAddress else responses[k].invoice.from;
            other in profiles && Describes(responses[k].contact, profiles[other])
  }

  /** One response for every position of the index with a stored invoice that is paid, or that is not. */
  ghost predicate RespondsToAll(
    responses: seq<InvoiceResponse>, ids: seq<U64>, invoices: map<U64, Invoice>, profiles: map<Addr, ContactInfo>,
    raised: bool, paid: bool)
  {
    exists at: seq<nat> ::
      && RespondsAt(responses, at, ids, invoices, profiles, raised)
      && forall i :: 0 <= i < |ids| ==>
           (i in at <==> ids[i] in invoices && (paid <==> invoices[ids[i]].status == Paid))
  }

  /** The positions `Listed` takes its invoices from. */
  lemma {:induction false} ListedAt(invoices: map<U64, Invoice>, ids: seq<U64>, paid: bool) returns (at: seq<nat>)
    ensures |at| == |Listed(invoices, ids, paid)|
    ensures forall j, k :: 0 <= j < k < |at| ==> at[j] < at[k]
    ensures forall k :: 0 <= k < |at| ==>
              at[k] < |ids| && ids[at[k]] in invoices && Listed(invoices, ids, paid)[k] == invoices[ids[at[k]]]
    ensures forall i :: 0 <= i < |ids| ==>
              (i in at <==> ids[i] in invoices && (paid <==> invoices[ids[i]].status == Paid))
    decreases |ids|
  {
    if ids == [] {
      at := [];
    } else {
      var init, last := ids[..|ids| - 1], |ids| - 1;
      at := ListedAt(invoices, init, paid);
      ListedNext(invoices, ids, last, paid);
      assert ids[..last + 1] == ids;
      if ids[last] in invoices && (paid <==> invoices[ids[last]].status == Paid) {
        at := at + [last];
      }
    }
  }

  lemma ResponsesToAll(s: Store, ids: seq<U64>, paid: bool, side: Side)
    requires AllKnown(s.profiles, Listed(s.invoices, ids, paid), side)
    ensures RespondsToAll(Responses(s.profiles, Listed(s.invoices, ids, paid), side), ids, s.invoices, s.profiles,
                          side == Receivable, paid)
  {
    var at := ListedAt(s.invoices, ids, paid);
    assert RespondsAt(Responses(s.profiles, Listed(s.invoices, ids, paid), side), at, ids, s.invoices, s.profiles,
                      side == Receivable);
  }

  /** The other party of every stored invoice of an index has a profile, as far as the invoice is paid, or is not. */
  predicate OthersKnown(
    ids: seq<U64>, invoices: map<U64, Invoice>, profiles: map<Addr, ContactInfo>, raised: bool, paid: bool)
  {
    forall id :: id in ids && id in invoices && (paid <==> invoices[id].status == Paid) ==>
      (if raised then invoices[id].payeeAddress else invoices[id].from) in profiles
  }

  lemma KnownIff(s: Store, ids: seq<U64>, paid: bool, side: Side)
    ensures AllKnown(s.profiles, Listed(s.invoices, ids, paid), side)
       <==> OthersKnown(ids, s.invoices, s.profiles, side == Receivable, paid)
  {
    var at := ListedAt(s.invoices, ids, paid);
    var list := Listed(s.invoices, ids, paid);
    if AllKnown(s.profiles, list, side) {
      forall id | id in ids && id in s.invoices && (paid <==> s.invoices[id].status == Paid)
        ensures Counterparty(s.invoices[id], side) in s.profiles
      {
        var i :| 0 <= i < |ids| && ids[i] == id;
        var k :| 0 <= k < |at| && at[k] == i;
        assert list[k] == s.invoices[id];
      }
    } else {
      var k :| 0 <= k < |list| && Counterparty(list[k], side) !in s.profiles;
      assert at[k] in at && ids[at[k]] in ids;
    }
  }

  /** What `InvoiceAnswer` answers, read off the storage. */
  lemma AnswerReadsIndexes(s: Store, address: Addr, paid: bool)
    ensures var r := InvoiceAnswer(s, address, paid);
            if address !in s.profiles then r == Ok(RequestResponse([], []))
            else
              var sent, received := s.profiles[address].generatedInvoices, s.profiles[address].assignedInvoices;
              && (r.Ok? <==> OthersKnown(sent, s.invoices, s.profiles, true, paid)
                             && OthersKnown(received, s.invoices, s.profiles, false, paid))
              && (r.Ok? ==> RespondsToAll(r.value.sent, sent, s.invoices, s.profiles, true, paid)
                            && RespondsToAll(r.value.received, received, s.invoices, s.profiles, false, paid))
              && (r.Err? ==> r.error == NotFound)
  {
    hide Listed, RespondsToAll, OthersKnown;
    if address in s.profiles {
      var sent, received := s.profiles[address].generatedInvoices, s.profiles[address].assignedInvoices;
      KnownIff(s, sent, paid, Receivable);
      KnownIff(s, received, paid, Payable);
      if InvoiceAnswer(s, address, paid).Ok? {
        ResponsesToAll(s, sent, paid, Receivable);
        ResponsesToAll(s, received, paid, Payable);
      }
    }
  }

  /** The stored invoices of both indexes that are not paid; a failure exactly when the other party of one of them has
      no profile. */
  method GetPendingInvoices(s: Storage, address: Addr) returns (r: Result<RequestResponse, Error>)
    ensures r == InvoiceAnswer(s.View(), address, false)
    ensures address !in s.profiles ==> r == Ok(RequestResponse([], []))
    ensures address in s.profiles ==>
              var sent, received := s.profiles[address].generatedInvoices, s.profiles[address].assignedInvoices;
              && (r.Ok? <==> OthersKnown(sent, s.invoices, s.profiles, true, false)
                             && OthersKnown(received, s.invoices, s.profiles, false, false))
              && (r.Ok? ==> RespondsToAll(r.value.sent, sent, s.invoices, s.profiles, true, false)
                            && RespondsToAll(r.value.received, received, s.invoices, s.profiles, false, false))
  {
    hide RespondsToAll, OthersKnown, InvoiceAnswer;
    r := GetInvoices(s, address, false);
    AnswerReadsIndexes(s.View(), address, false);
  }

  /** The same for the paid ones. */
  method GetExecutedInvoices(s: Storage, address: Addr) returns (r: Result<RequestResponse, Error>)
    ensures r == InvoiceAnswer(s.View(), address, true)
    ensures address !in s.profiles ==> r == Ok(RequestResponse([], []))
    ensures address in s.profiles ==>
              var sent, received := s.profiles[address].generatedInvoices, s.profiles[address].assignedInvoices;
              && (r.Ok? <==> OthersKnown(sent, s.invoices, s.profiles, true, true)
                             && OthersKnown(received, s.invoices, s.profiles, false, true))
              && (r.Ok? ==> RespondsToAll(r.value.sent, sent, s.invoices, s.profiles, true, true)
                            && RespondsToAll(r.value.received, received, s.invoices, s.profiles, false, true))
  {
    hide RespondsToAll, OthersKnown, InvoiceAnswer;
    r := GetInvoices(s, address, true);
    AnswerReadsIndexes(s.View(), address, true);
  }

  /** The indexed invoices themselves. */
  function Entries(invoices: map<U64, Invoice>, ids: seq<U64>): seq<Invoice>
    requires forall id :: id in ids ==> id in invoices
  {
    seq(|ids|, i requires 0 <= i < |ids| => invoices[ids[i]])
  }

  lemma {:induction false} ListsMergeToEntries(invoices: map<U64, Invoice>, ids: seq<U64>)
    requires forall id :: id in ids ==> id in invoices
    ensures Interleaves(Entries(invoices, ids), Listed(invoices, ids, false), Listed(invoices, ids, true))
    decreases |ids|
  {
    if ids == [] {
    } else {
      ListsMergeToEntries(invoices, ids[1..]);
      var rest := Entries(invoices, ids[1..]);
      assert Entries(invoices, ids)[1..] == rest;
      var p, e := Listed(invoices, ids[1..], false), Listed(invoices, ids[1..], true);
      assert ([invoices[ids[0]]] + p)[1..] == p && ([invoices[ids[0]]] + e)[1..] == e;
    }
  }

  lemma IndexedAreStored(s: Store, a: Addr, side: Side)
    requires Inv(s) && a in s.profiles
    ensures IsIndex(Index(s.profiles[a], side), s.invoices, side, a)
    ensures forall id :: id in Index(s.profiles[a], side) ==> id in s.invoices
  {
    hide Mirrored, Numbered, Linked;
  }

  lemma CounterpartiesKnown(s: Store, ids: seq<U64>, paid: bool, side: Side)
    requires Inv(s)
    ensures AllKnown(s.profiles, Listed(s.invoices, ids, paid), side)
  {
    ListedAreStored(s.invoices, ids, paid);
    hide Inv;
    var list := Listed(s.invoices, ids, paid);
    forall i | 0 <= i < |list|
      ensures Counterparty(list[i], side) in s.profiles
    {
      assert list[i] in list;
      var id :| id in s.invoices && s.invoices[id] == list[i];
      StoredInvoiceIsOk(s, id);
    }
  }

  lemma SidesPartition(s: Store, address: Addr, side: Side)
    requires Inv(s) && address in s.profiles
    ensures var ids := Index(s.profiles[address], side);
            && (forall id :: id in ids ==> id in s.invoices)
            && Interleaves(Entries(s.invoices, ids), Listed(s.invoices, ids, false), Listed(s.invoices, ids, true))
            && AllKnown(s.profiles, Listed(s.invoices, ids, false), side)
            && AllKnown(s.profiles, Listed(s.invoices, ids, true), side)
  {
    var ids := Index(s.profiles[address], side);
    IndexedAreStored(s, address, side);
    hide Inv;
    ListsMergeToEntries(s.invoices, ids);
    CounterpartiesKnown(s, ids, false, side);
    CounterpartiesKnown(s, ids, true, side);
  }

  function InvoicesOf(responses: seq<InvoiceResponse>): seq<Invoice> {
    seq(|responses|, i requires 0 <= i < |responses| => responses[i].invoice)
  }

  lemma InvoicesOfResponses(profiles: map<Addr, ContactInfo>, list: seq<Invoice>, side: Side)
    requires AllKnown(profiles, list, side)
    ensures InvoicesOf(Responses(profiles, list, side)) == list
  {
  }

  /** In every state that satisfies the invariant both queries answer, for every address, and on each side the
      pending and the executed answers merge, in order, to exactly the indexed invoices. */
  lemma PendingAndExecutedPartition(s: Store, address: Addr)
    requires Inv(s)
    ensures InvoiceAnswer(s, address, false).Ok? && InvoiceAnswer(s, address, true).Ok?
    ensures address in s.profiles ==>
              var pending, executed := InvoiceAnswer(s, address, false).value, InvoiceAnswer(s, address, true).value;
              var raised, received := s.profiles[address].generatedInvoices, s.profiles[address].assignedInvoices;
              && (forall id :: id in raised || id in received ==> id in s.invoices)
              && Interleaves(Entries(s.invoices, raised), InvoicesOf(pending.sent), InvoicesOf(executed.sent))
              && Interleaves(Entries(s.invoices, received), InvoicesOf(pending.received), InvoicesOf(executed.received))
  {
    if address in s.profiles {
      SidesPartition(s, address, Receivable);
      SidesPartition(s, address, Payable);
      hide Inv, Listed, AllKnown, Responses, InvoicesOf, Interleaves, Entries;
      var raised, received := s.profiles[address].generatedInvoices, s.profiles[address].assignedInvoices;
      assert Index(s.profiles[address], Receivable) == raised && Index(s.profiles[address], Payable) == received;
      InvoicesOfResponses(s.profiles, Listed(s.invoices, raised, false), Receivable);
      InvoicesOfResponses(s.profiles, Listed(s.invoices, raised, true), Receivable);
      InvoicesOfResponses(s.profiles, Listed(s.invoices, received, false), Payable);
      InvoicesOfResponses(s.profiles, Listed(s.invoices, received, true), Payable);
    }
  }

  /** The responses are about exactly the stored invoices that `address` raised, or received, and that are paid, or are
      not, each once, by increasing id. */
  ghost predicate IsScan(responses: seq<InvoiceResponse>, s: Store, address: Addr, raised: bool, paid: bool) {
    && (forall j, k :: 0 <= j < k < |responses| ==> responses[j].invoice.id < responses[k].invoice.id)
    && (forall k :: 0 <= k < |responses| ==>
          var i := responses[k].invoice;
          && i.id in s.invoices && s.invoices[i.id] == i && (paid <==> i.status == Paid)
          && (if raised then i.from else i.payeeAddress) == address)
    && (forall id :: id in s.invoices && (paid <==> s.invoices[id].status == Paid)
                     && (if raised then s.invoices[id].from else s.invoices[id].payeeAddress) == address ==>
          exists k :: 0 <= k < |responses| && responses[k].invoice == s.invoices[id])
  }

  /** Positions in increasing order select ids in increasing order. */
  lemma SelectedInOrder(ids: seq<U64>, at: seq<nat>)
    requires Increasing(ids) && (forall j, k :: 0 <= j < k < |at| ==> at[j] < at[k])
    requires forall k :: 0 <= k < |at| ==> at[k] < |ids|
    ensures forall j, k :: 0 <= j < k < |at| ==> ids[at[j]] < ids[at[k]]
  {
  }

  lemma SelectedIsScan(s: Store, address: Addr, side: Side, ids: seq<U64>, responses: seq<InvoiceResponse>,
                       at: seq<nat>, paid: bool)
    requires IsIndex(ids, s.invoices, side, address) && forall id :: id in s.invoices ==> s.invoices[id].id == id
    requires RespondsAt(responses, at, ids, s.invoices, s.profiles, side == Receivable)
    requires forall i :: 0 <= i < |ids| ==>
               (i in at <==> ids[i] in s.invoices && (paid <==> s.invoices[ids[i]].status == Paid))
    ensures IsScan(responses, s, address, side == Receivable, paid)
  {
    SelectedInOrder(ids, at);
    hide Increasing, Describes;
    forall k | 0 <= k < |responses|
      ensures at[k] in at && ids[at[k]] in ids && responses[k].invoice.id == ids[at[k]]
    {
    }
    forall id | id in s.invoices && (paid <==> s.invoices[id].status == Paid) && Party(s.invoices[id], side) == address
      ensures exists k :: 0 <= k < |responses| && responses[k].invoice == s.invoices[id]
    {
      var i :| 0 <= i < |ids| && ids[i] == id;
      var k :| 0 <= k < |at| && at[k] == i;
      assert responses[k].invoice == s.invoices[id];
    }
  }

  lemma IndexIsScan(s: Store, address: Addr, side: Side, responses: seq<InvoiceResponse>, paid: bool)
    requires Inv(s) && address in s.profiles
    requires RespondsToAll(responses, Index(s.profiles[address], side), s.invoices, s.profiles, side == Receivable,
                           paid)
    ensures IsScan(responses, s, address, side == Receivable, paid)
  {
    var ids := Index(s.profiles[address], side);
    IndexedAreStored(s, address, side);
    hide Inv, RespondsAt, IsScan, IsIndex;
    forall id | id in s.invoices
      ensures s.invoices[id].id == id
    {
      StoredInvoiceIsOk(s, id);
    }
    var at: seq<nat> :|
      && RespondsAt(responses, at, ids, s.invoices, s.profiles, side == Receivable)
      && forall i :: 0 <= i < |ids| ==>
           (i in at <==> ids[i] in s.invoices && (paid <==> s.invoices[ids[i]].status == Paid));
    SelectedIsScan(s, address, side, ids, responses, at, paid);
  }

  /** In every state that satisfies the invariant, each of the four lists the two queries answer with is a scan of the
      invoice map. */
  lemma AnswersAreScans(s: Store, address: Addr, paid: bool)
    requires Inv(s)
    ensures InvoiceAnswer(s, address, paid).Ok?
    ensures IsScan(InvoiceAnswer(s, address, paid).value.sent, s, address, true, paid)
    ensures IsScan(InvoiceAnswer(s, address, paid).value.received, s, address, false, paid)
  {
    PendingAndExecutedPartition(s, address);
    AnswerReadsIndexes(s, address, paid);
    hide InvoiceAnswer, RespondsToAll;
    var r := InvoiceAnswer(s, address, paid).value;
    if address in s.profiles {
      hide Inv, IsScan;
      IndexIsScan(s, address, Receivable, r.sent, paid);
      IndexIsScan(s, address, Payable, r.received, paid);
    } else {
      hide Inv;
      forall id | id in s.invoices
        ensures s.invoices[id].from != address && s.invoices[id].payeeAddress != address
      {
        StoredInvoiceIsOk(s, id);
      }
    }
  }

  // ---------------------------------------------------------------- contact lists

  predicate ContactsKnown(profiles: map<Addr, ContactInfo>, list: seq<Addr>) {
    forall i :: 0 <= i < |list| ==> list[i] in profiles
  }

  function ContactResponses(profiles: map<Addr, ContactInfo>, list: seq<Addr>): seq<ContactResponse>
    requires ContactsKnown(profiles, list)
  {
    seq(|list|, i requires 0 <= i < |list| => ContactOf(profiles[list[i]]))
  }

  /** One response per listed contact, or a failure as soon as one of them has no profile. */
  function ContactAnswer(profiles: map<Addr, ContactInfo>, list: seq<Addr>): (r: Result<seq<ContactResponse>, Error>)
    ensures r.Ok? <==> forall x :: x in list ==> x in profiles
    ensures r.Ok? ==>
              |r.value| == |list| && forall i :: 0 <= i < |list| ==> Describes(r.value[i], profiles[list[i]])
  {
    if ContactsKnown(profiles, list) then Ok(ContactResponses(profiles, list)) else Err(NotFound)
  }

  method LoadContacts(s: Storage, list: seq<Addr>) returns (r: Result<seq<ContactResponse>, Error>)
    ensures r == ContactAnswer(s.profiles, list)
  {
    var responses: seq<ContactResponse> := [];
    for i := 0 to |list|
      invariant ContactsKnown(s.profiles, list[..i])
      invariant responses == ContactResponses(s.profiles, list[..i])
    {
      if list[i] !in s.profiles {
        return Err(NotFound);
      }
      responses := responses + [ContactOf(s.profiles[list[i]])];
    }
    assert list[..|list|] == list;
    return Ok(responses);
  }

  method GetPendingContactRequests(s: Storage, address: Addr) returns (r: Result<seq<ContactResponse>, Error>)
    ensures r == if address in s.profiles then ContactAnswer(s.profiles, s.profiles[address].receivedRequests)
                 else Ok([])
  {
    if address !in s.profiles {
      return Ok([]);
    }
    r := LoadContacts(s, s.profiles[address].receivedRequests);
  }

  method GetSentContactRequests(s: Storage, address: Addr) returns (r: Result<seq<ContactResponse>, Error>)
    ensures r == if address in s.profiles then ContactAnswer(s.profiles, s.profiles[address].sentRequests) else Ok([])
  {
    if address !in s.profiles {
      return Ok([]);
    }
    r := LoadContacts(s, s.profiles[address].sentRequests);
  }

  method GetAllContacts(s: Storage, address: Addr) returns (r: Result<seq<ContactResponse>, Error>)
    ensures r == if address in s.profiles then ContactAnswer(s.profiles, s.profiles[address].contacts) else Ok([])
  {
    if address !in s.profiles {
      return Ok([]);
    }
    r := LoadContacts(s, s.profiles[address].contacts);
  }

  /** Each of the three contact queries succeeds for every address: everybody listed has a profile. */
  lemma ContactQueriesNeverFail(s: Store, address: Addr)
    requires Inv(s) && address in s.profiles
    ensures ContactAnswer(s.profiles, s.profiles[address].receivedRequests).Ok?
    ensures ContactAnswer(s.profiles, s.profiles[address].sentRequests).Ok?
    ensures ContactAnswer(s.profiles, s.profiles[address].contacts).Ok?
  {
    hide Numbered, Indexed, Linked, NoDuplicates, Converse;
    assert ListsOk(address, s.profiles[address], s.profiles.Keys);
  }

  // ---------------------------------------------------------------- totals by denom

  /** What is still owed on an invoice, counted for one denom. */
  function Owed(invoice: Invoice): int {
    invoice.receivable.amount - invoice.amountPaid.amount
  }

  function OwedIn(invoice: Invoice, denom: Denom): int {
    if invoice.receivable.denom == denom then Owed(invoice) else 0
  }

  function Outstanding(list: seq<Invoice>, denom: Denom): int {
    if list == [] then 0 else Outstanding(list[..|list| - 1], denom) + OwedIn(list[|list| - 1], denom)
  }

  /** The denoms of a list, each once, in the order they first appear. */
  function FirstSeen(list: seq<Invoice>): seq<Denom> {
    if list == [] then []
    else
      var before, denom := FirstSeen(list[..|list| - 1]), list[|list| - 1].receivable.denom;
      if denom in before then before else before + [denom]
  }

  predicate Distinct(denoms: seq<Denom>) {
    forall i, j :: 0 <= i < j < |denoms| ==> denoms[i] != denoms[j]
  }

  lemma {:induction false} FirstSeenIsDistinct(list: seq<Invoice>)
    ensures Distinct(FirstSeen(list))
    ensures forall denom ::
              denom in FirstSeen(list) <==> exists i :: 0 <= i < |list| && list[i].receivable.denom == denom
    decreases |list|
  {
    if list == [] {
    } else {
      var init := list[..|list| - 1];
      FirstSeenIsDistinct(init);
      forall denom | exists i :: 0 <= i < |list| && list[i].receivable.denom == denom
        ensures denom in FirstSeen(list)
      {
        var i :| 0 <= i < |list| && list[i].receivable.denom == denom;
        if i < |init| {
          assert init[i].receivable.denom == denom;
        }
      }
    }
  }

  /** Earlier in the answer means seen earlier: the first denom appears in the list before the second ever does. */
  lemma {:induction false} FirstSeenInOrder(list: seq<Invoice>, i: nat, j: nat)
    requires i < j < |FirstSeen(list)|
    ensures exists k :: 0 <= k < |list| && list[k].receivable.denom == FirstSeen(list)[i]
              && forall m :: 0 <= m <= k ==> list[m].receivable.denom != FirstSeen(list)[j]
    decreases |list|
  {
    var init := list[..|list| - 1];
    FirstSeenIsDistinct(init);
    var d, e := FirstSeen(list)[i], FirstSeen(list)[j];
    var k: nat;
    if j < |FirstSeen(init)| {
      FirstSeenInOrder(init, i, j);
      k :| k < |init| && init[k].receivable.denom == d && forall m :: 0 <= m <= k ==> init[m].receivable.denom != e;
    } else {
      assert e !in FirstSeen(init) && d in FirstSeen(init);
      k :| k < |init| && init[k].receivable.denom == d;
    }
    forall m | 0 <= m <= k
      ensures list[m].receivable.denom != e
    {
      assert init[m] == list[m];
    }
    assert init[k] == list[k];
  }

  lemma {:induction false} UnseenOwesNothing(list: seq<Invoice>, denom: Denom)
    requires denom !in FirstSeen(list)
    ensures Outstanding(list, denom) == 0
    decreases |list|
  {
    if list == [] {
    } else {
      UnseenOwesNothing(list[..|list| - 1], denom);
    }
  }

  /** One coin for each denom of the list, in first-seen order, with exactly what is outstanding in it. */
  predicate IsSummary(coins: seq<Coin>, list: seq<Invoice>) {
    && |coins| == |FirstSeen(list)|
    && forall i :: 0 <= i < |coins| ==>
         coins[i].denom == FirstSeen(list)[i] && coins[i].amount == Outstanding(list, coins[i].denom)
  }

  predicate NoneOverpaid(list: seq<Invoice>) {
    forall i :: 0 <= i < |list| ==> Owed(list[i]) >= 0
  }

  ghost predicate Summable(list: seq<Invoice>) {
    NoneOverpaid(list) && forall denom :: Outstanding(list, denom) <= U128_MAX
  }

  lemma {:induction false} OutstandingAppend(a: seq<Invoice>, b: seq<Invoice>, denom: Denom)
    ensures Outstanding(a + b, denom) == Outstanding(a, denom) + Outstanding(b, denom)
    decreases |b|
  {
    if b == [] {
      assert a + b == a;
    } else {
      assert (a + b)[..|a + b| - 1] == a + b[..|b| - 1];
      OutstandingAppend(a, b[..|b| - 1], denom);
    }
  }

  lemma {:induction false} OutstandingNotNegative(list: seq<Invoice>, denom: Denom)
    requires NoneOverpaid(list)
    ensures Outstanding(list, denom) >= 0
    decreases |list|
  {
    if list == [] {
    } else {
      OutstandingNotNegative(list[..|list| - 1], denom);
    }
  }

  lemma SummablePrefix(a: seq<Invoice>, b: seq<Invoice>, denom: Denom)
    requires Summable(a + b)
    ensures NoneOverpaid(a) && Outstanding(a, denom) <= U128_MAX
  {
    OutstandingAppend(a, b, denom);
    assert forall i :: 0 <= i < |a| ==> (a + b)[i] == a[i];
    assert forall i :: 0 <= i < |b| ==> (a + b)[|a| + i] == b[i];
    OutstandingNotNegative(b, denom);
  }

  lemma SummaryExtends(coins: seq<Coin>, list: seq<Invoice>, next: Invoice, j: nat)
    requires IsSummary(coins, list) && j < |coins| && coins[j].denom == next.receivable.denom
    requires 0 <= coins[j].amount + Owed(next) <= U128_MAX
    ensures IsSummary(coins[j := Coin(coins[j].denom, coins[j].amount + Owed(next))], list + [next])
  {
    assert (list + [next])[..|list|] == list;
    FirstSeenIsDistinct(list);
  }

  lemma SummaryGrows(coins: seq<Coin>, list: seq<Invoice>, next: Invoice)
    requires IsSummary(coins, list) && 0 <= Owed(next) <= U128_MAX
    requires forall j :: 0 <= j < |coins| ==> coins[j].denom != next.receivable.denom
    ensures IsSummary(coins + [Coin(next.receivable.denom, Owed(next))], list + [next])
  {
    assert (list + [next])[..|list|] == list;
    assert next.receivable.denom !in FirstSeen(list);
    UnseenOwesNothing(list, next.receivable.denom);
  }

  /** Find or push: an unpaid invoice is added to the coin of its denom, or becomes a new coin at the end. */
  method AddInvoice(coins: seq<Coin>, invoice: Invoice, ghost done: seq<Invoice>)
    returns (r: Result<seq<Coin>, Error>)
    requires IsSummary(coins, done) && NoneOverpaid(done)
    ensures r.Ok? <==>
              0 <= Owed(invoice) && Outstanding(done + [invoice], invoice.receivable.denom) <= U128_MAX
    ensures r.Ok? ==> IsSummary(r.value, done + [invoice])
    ensures r.Err? ==> r.error == Panic
  {
    var denom := invoice.receivable.denom;
    assert (done + [invoice])[..|done|] == done;
    if invoice.receivable.amount < invoice.amountPaid.amount {
      return Err(Panic);
    }
    var owed := invoice.receivable.amount - invoice.amountPaid.amount;
    var totals := coins;
    var found := false;
    var j := 0;
    while j < |totals|
      invariant j <= |totals| && totals == coins && !found
      invariant forall k :: 0 <= k < j ==> totals[k].denom != denom
    {
      if totals[j].denom == denom {
        if totals[j].amount + owed > U128_MAX {
          return Err(Panic);
        }
        SummaryExtends(totals, done, invoice, j);
        totals := totals[j := Coin(totals[j].denom, totals[j].amount + owed)];
        found := true;
        break;
      }
      j := j + 1;
    }
    if !found {
      SummaryGrows(totals, done, invoice);
      UnseenOwesNothing(done, denom);
      totals := totals + [Coin(denom, owed)];
    }
    return Ok(totals);
  }

  lemma NothingListed(invoices: map<U64, Invoice>, ids: seq<U64>)
    ensures Listed(invoices, ids[..0], false) == [] && IsSummary([], [])
  {
  }

  lemma SplitAt(invoices: map<U64, Invoice>, ids: seq<U64>, i: nat)
    requires i < |ids| && ids[i] in invoices && invoices[ids[i]].status != Paid
    ensures Listed(invoices, ids, false) ==
            Listed(invoices, ids[..i], false) + [invoices[ids[i]]] + Listed(invoices, ids[i + 1..], false)
  {
    assert ids == ids[..i + 1] + ids[i + 1..];
    ListedAppend(invoices, ids[..i + 1], ids[i + 1..], false);
    ListedNext(invoices, ids, i, false);
  }

  lemma SummaryFits(coins: seq<Coin>, list: seq<Invoice>)
    requires IsSummary(coins, list) && NoneOverpaid(list)
    ensures Summable(list)
  {
    forall denom
      ensures Outstanding(list, denom) <= U128_MAX
    {
      if denom in FirstSeen(list) {
        var i :| 0 <= i < |FirstSeen(list)| && FirstSeen(list)[i] == denom;
        assert coins[i].denom == denom;
      } else {
        UnseenOwesNothing(list, denom);
      }
    }
  }

  /** The loop over one index. It panics exactly when some invoice is overpaid or some sum does not fit in 128 bits. */
  method SumByDenom(s: Storage, ids: seq<U64>) returns (r: Result<seq<Coin>, Error>)
    ensures r.Ok? <==> Summable(Listed(s.invoices, ids, false))
    ensures r.Ok? ==> IsSummary(r.value, Listed(s.invoices, ids, false))
    ensures r.Err? ==> r.error == Panic
  {
    hide Listed, IsSummary, Outstanding, FirstSeen;
    var totals: seq<Coin> := [];
    NothingListed(s.invoices, ids);
    for i := 0 to |ids|
      invariant IsSummary(totals, Listed(s.invoices, ids[..i], false))
      invariant NoneOverpaid(Listed(s.invoices, ids[..i], false))
    {
      ghost var done := Listed(s.invoices, ids[..i], false);
      ListedNext(s.invoices, ids, i, false);
      if ids[i] !in s.invoices {
        continue;
      }
      var invoice := s.invoices[ids[i]];
      if invoice.status != Paid {
        var next := AddInvoice(totals, invoice, done);
        if next.Err? {
          SplitAt(s.invoices, ids, i);
          ghost var rest := Listed(s.invoices, ids[i + 1..], false);
          assert (done + [invoice])[|done|] == invoice;
          if Summable(done + [invoice] + rest) {
            SummablePrefix(done + [invoice], rest, invoice.receivable.denom);
          }
          return next;
        }
        totals := next.value;
      }
    }
    assert ids[..|ids|] == ids;
    SummaryFits(totals, Listed(s.invoices, ids, false));
    return Ok(totals);
  }

  /** The list a total query sums: the unpaid invoices of one side of an address. */
  function UnpaidOf(s: Store, address: Addr, side: Side): seq<Invoice> {
    if address in s.profiles then Listed(s.invoices, Index(s.profiles[address], side), false) else []
  }

  method GetTotalReceivables(s: Storage, address: Addr) returns (r: Result<seq<Coin>, Error>)
    ensures r.Ok? <==> Summable(UnpaidOf(s.View(), address, Receivable))
    ensures r.Ok? ==> IsSummary(r.value, UnpaidOf(s.View(), address, Receivable))
    ensures r.Err? ==> r.error == Panic
  {
    if address !in s.profiles {
      return Ok([]);
    }
    r := SumByDenom(s, s.profiles[address].generatedInvoices);
  }

  method GetTotalPayables(s: Storage, address: Addr) returns (r: Result<seq<Coin>, Error>)
    ensures r.Ok? <==> Summable(UnpaidOf(s.View(), address, Payable))
    ensures r.Ok? ==> IsSummary(r.value, UnpaidOf(s.View(), address, Payable))
    ensures r.Err? ==> r.error == Panic
  {
    if address !in s.profiles {
      return Ok([]);
    }
    r := SumByDenom(s, s.profiles[address].assignedInvoices);
  }

  // ---------------------------------------------------------------- totals against a scan of the map

  function OpenIn(invoice: Invoice, denom: Denom): int {
    if invoice.status == Paid then 0 else OwedIn(invoice, denom)
  }

  /** The sum over the stored invoices with ids below `bound` that have `a` on the given side. */
  function Scan(invoices: map<U64, Invoice>, side: Side, a: Addr, denom: Denom, bound: nat): int {
    if bound == 0 then 0
    else
      Scan(invoices, side, a, denom, bound - 1)
      + if bound - 1 in invoices && Party(invoices[bound - 1], side) == a then OpenIn(invoices[bound - 1], denom) else 0
  }

  function ScanAll(invoices: map<U64, Invoice>, denom: Denom, bound: nat): int {
    if bound == 0 then 0
    else
      ScanAll(invoices, denom, bound - 1)
      + if bound - 1 in invoices then OpenIn(invoices[bound - 1], denom) else 0
  }

  lemma LargestIsLast(ids: seq<U64>, x: U64)
    requires Increasing(ids) && x in ids && forall id :: id in ids ==> id <= x
    ensures ids[|ids| - 1] == x && Increasing(ids[..|ids| - 1])
    ensures forall id :: id in ids[..|ids| - 1] <==> id in ids && id < x
  {
    var last := |ids| - 1;
    assert ids[last] in ids;
    assert ids == ids[..last] + [ids[last]];
  }

  lemma SomethingIn(ids: seq<U64>)
    ensures ids != [] ==> exists id :: id in ids
  {
    if ids != [] {
      assert ids[0] in ids;
    }
  }

  lemma SumOfLast(ids: seq<U64>, invoices: map<U64, Invoice>, denom: Denom)
    requires ids != [] && ids[|ids| - 1] in invoices
    ensures Outstanding(Listed(invoices, ids, false), denom) ==
            Outstanding(Listed(invoices, ids[..|ids| - 1], false), denom) + OpenIn(invoices[ids[|ids| - 1]], denom)
  {
    var last := |ids| - 1;
    ListedNext(invoices, ids, last, false);
    assert ids[..last + 1] == ids;
    OutstandingAppend(Listed(invoices, ids[..last], false), [invoices[ids[last]]], denom);
    assert Outstanding([invoices[ids[last]]], denom) == OwedIn(invoices[ids[last]], denom);
  }

  lemma {:induction false} IndexSumIsScan(
    ids: seq<U64>, invoices: map<U64, Invoice>, side: Side, a: Addr, denom: Denom, bound: nat)
    requires Increasing(ids)
    requires forall id :: id in ids <==> id in invoices && Party(invoices[id], side) == a && id < bound
    ensures Outstanding(Listed(invoices, ids, false), denom) == Scan(invoices, side, a, denom, bound)
    decreases bound
  {
    if bound == 0 {
      SomethingIn(ids);
    } else {
      hide Increasing, Listed, Outstanding, Party, OpenIn;
      if bound - 1 in invoices && Party(invoices[bound - 1], side) == a {
        var x: U64, init := bound - 1, ids[..|ids| - 1];
        assert x in ids;
        LargestIsLast(ids, x);
        SumOfLast(ids, invoices, denom);
        IndexSumIsScan(init, invoices, side, a, denom, x);
      } else {
        IndexSumIsScan(ids, invoices, side, a, denom, bound - 1);
      }
    }
  }

  /** One above every id in use. */
  function Bound(s: Store): nat {
    if s.invoiceId.Some? then s.invoiceId.value + 1 else 0
  }

  lemma IdsBelowBound(s: Store)
    requires Inv(s)
    ensures forall id :: id in s.invoices ==> id < Bound(s)
  {
    hide Mirrored, Indexed, Linked;
    forall id | id in s.invoices
      ensures id < Bound(s)
    {
      assert Issued(id, |s.invoices|);
    }
  }

  /** Each address's total is the sum over all unpaid invoices of the map with that address on that side. */
  lemma TotalsMatchScan(s: Store, a: Addr, side: Side, denom: Denom)
    requires Inv(s) && a in s.profiles
    ensures Outstanding(UnpaidOf(s, a, side), denom) == Scan(s.invoices, side, a, denom, Bound(s))
  {
    IndexedAreStored(s, a, side);
    IdsBelowBound(s);
    hide Inv;
    IndexSumIsScan(Index(s.profiles[a], side), s.invoices, side, a, denom, Bound(s));
  }

  /** The answer of a total query read off the map: each coin is the scan of its denom, and a denom without a coin has
      nothing outstanding. */
  lemma AnswerMatchesScan(s: Store, a: Addr, side: Side, coins: seq<Coin>, denom: Denom)
    requires Inv(s) && a in s.profiles && IsSummary(coins, UnpaidOf(s, a, side))
    ensures forall i :: 0 <= i < |coins| && coins[i].denom == denom ==>
              coins[i].amount == Scan(s.invoices, side, a, denom, Bound(s))
    ensures (forall i :: 0 <= i < |coins| ==> coins[i].denom != denom) ==>
              Scan(s.invoices, side, a, denom, Bound(s)) == 0
    ensures forall i, j :: 0 <= i < j < |coins| ==> coins[i].denom != coins[j].denom
  {
    hide Inv, Scan;
    TotalsMatchScan(s, a, side, denom);
    FirstSeenIsDistinct(UnpaidOf(s, a, side));
    if forall i :: 0 <= i < |coins| ==> coins[i].denom != denom {
      UnseenOwesNothing(UnpaidOf(s, a, side), denom);
    }
  }

  /** In every state that satisfies the invariant no subtraction in a total query underflows: the queries fail only
      when a per-denom sum exceeds 128 bits. */
  lemma TotalsNeverUnderflow(s: Store, a: Addr, side: Side)
    requires Inv(s)
    ensures NoneOverpaid(UnpaidOf(s, a, side))
  {
    hide Inv;
    if a in s.profiles {
      ListedAreStored(s.invoices, Index(s.profiles[a], side), false);
      var list := UnpaidOf(s, a, side);
      forall i | 0 <= i < |list|
        ensures Owed(list[i]) >= 0
      {
        assert list[i] in list;
        var id :| id in s.invoices && s.invoices[id] == list[i];
        StoredInvoiceIsOk(s, id);
      }
    }
  }

  // ---------------------------------------------------------------- double entry

  ghost function SumOver(addresses: set<Addr>, f: Addr -> int): int {
    if addresses == {} then 0
    else
      var a :| a in addresses;
      f(a) + SumOver(addresses - {a}, f)
  }

  lemma {:induction false} SumOverAdds(addresses: set<Addr>, f: Addr -> int, g: Addr -> int, h: Addr -> int)
    requires forall a :: a in addresses ==> f(a) == g(a) + h(a)
    ensures SumOver(addresses, f) == SumOver(addresses, g) + SumOver(addresses, h)
    decreases addresses
  {
    if addresses == {} {
    } else {
      var a :| a in addresses && SumOver(addresses, f) == f(a) + SumOver(addresses - {a}, f)
                && SumOver(addresses, g) == g(a) + SumOver(addresses - {a}, g)
                && SumOver(addresses, h) == h(a) + SumOver(addresses - {a}, h);
      SumOverAdds(addresses - {a}, f, g, h);
    }
  }

  lemma {:induction false} SumOverOne(addresses: set<Addr>, f: Addr -> int, x: Addr, v: int)
    requires forall a :: a in addresses ==> f(a) == if a == x then v else 0
    ensures SumOver(addresses, f) == if x in addresses then v else 0
    decreases addresses
  {
    if addresses == {} {
    } else {
      var a :| a in addresses && SumOver(addresses, f) == f(a) + SumOver(addresses - {a}, f);
      SumOverOne(addresses - {a}, f, x, v);
    }
  }

  lemma {:induction false} ScansAddUp(
    addresses: set<Addr>, invoices: map<U64, Invoice>, side: Side, denom: Denom, bound: nat)
    requires forall id :: id in invoices ==> Party(invoices[id], side) in addresses
    ensures SumOver(addresses, a => Scan(invoices, side, a, denom, bound)) == ScanAll(invoices, denom, bound)
    decreases bound
  {
    if bound == 0 {
      SumOverOne(addresses, a => Scan(invoices, side, a, denom, 0), "", 0);
    } else {
      ScansAddUp(addresses, invoices, side, denom, bound - 1);
      var x := if bound - 1 in invoices then Party(invoices[bound - 1], side) else "";
      var v := if bound - 1 in invoices then OpenIn(invoices[bound - 1], denom) else 0;
      var one := (a: Addr) => if a == x then v else 0;
      SumOverOne(addresses, one, x, v);
      SumOverAdds(addresses, a => Scan(invoices, side, a, denom, bound),
                  a => Scan(invoices, side, a, denom, bound - 1), one);
    }
  }

  lemma SumOverSame(addresses: set<Addr>, f: Addr -> int, g: Addr -> int)
    requires forall a :: a in addresses ==> f(a) == g(a)
    ensures SumOver(addresses, f) == SumOver(addresses, g)
  {
    var zero := (a: Addr) => 0;
    SumOverOne(addresses, zero, "", 0);
    SumOverAdds(addresses, f, g, zero);
  }

  lemma SideAddsUp(s: Store, side: Side, denom: Denom)
    requires Inv(s)
    ensures SumOver(s.profiles.Keys, a => Outstanding(UnpaidOf(s, a, side), denom))
         == ScanAll(s.invoices, denom, Bound(s))
  {
    forall id | id in s.invoices
      ensures Party(s.invoices[id], side) in s.profiles
    {
      StoredInvoiceIsOk(s, id);
    }
    forall a | a in s.profiles
      ensures Outstanding(UnpaidOf(s, a, side), denom) == Scan(s.invoices, side, a, denom, Bound(s))
    {
      TotalsMatchScan(s, a, side, denom);
    }
    hide Inv;
    ScansAddUp(s.profiles.Keys, s.invoices, side, denom, Bound(s));
    SumOverSame(s.profiles.Keys, a => Outstanding(UnpaidOf(s, a, side), denom),
                a => Scan(s.invoices, side, a, denom, Bound(s)));
  }

  /** Double entry: in each denom, the receivables of all profiles, the payables of all profiles and what is owed on
      all unpaid invoices are the same amount. */
  lemma DoubleEntry(s: Store, denom: Denom)
    requires Inv(s)
    ensures SumOver(s.profiles.Keys, a => Outstanding(UnpaidOf(s, a, Receivable), denom))
         == SumOver(s.profiles.Keys, a => Outstanding(UnpaidOf(s, a, Payable), denom))
         == ScanAll(s.invoices, denom, Bound(s))
  {
    SideAddsUp(s, Receivable, denom);
    SideAddsUp(s, Payable, denom);
  }
}
