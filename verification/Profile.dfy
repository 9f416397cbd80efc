/** Profiles and contact requests (contracts/core/src/profile.rs). Each call has a function giving its outcome on
    the storage value, and the method that performs it by loading, editing and saving. A method that fails may have
    saved already; undoing that is left to the caller, as on the chain. */
module Profile {
  import opened Common
  import opened State

  function RemoveFirst(list: seq<Addr>, x: Addr): seq<Addr> {
    if list == [] then []
    else if list[0] == x then list[1..]
    else [list[0]] + RemoveFirst(list[1..], x)
  }

  lemma {:induction false} RemoveAtFirstIndex(list: seq<Addr>, x: Addr, i: nat)
    requires i < |list| && list[i] == x && x !in list[..i]
    ensures RemoveFirst(list, x) == list[..i] + list[i + 1..]
    decreases |list|
  {
    if i == 0 {
    } else {
      assert list[0] in list[..i];
      assert x !in list[1..][..i - 1] by {
        assert list[1..][..i - 1] == list[1..i];
        assert forall y :: y in list[1..i] ==> y in list[..i];
      }
      RemoveAtFirstIndex(list[1..], x, i - 1);
      assert list[..i] == [list[0]] + list[1..][..i - 1];
    }
  }

  /** A request is recorded with its sender as sent and with its addressee as received. */
  function RequestOutcome(s: Store, sender: Addr, address: Addr): Outcome {
    if sender == address then Err(Unauthorized)
    else if sender !in s.profiles then Err(NoProfile)
    else if address in s.profiles[sender].sentRequests then Err(RequestAlreadySent)
    else if address !in s.profiles then Err(NoCounterpartyProfile)
    else
      var me, you := s.profiles[sender], s.profiles[address];
      Ok(Effect(
        s.(profiles := s.profiles[sender := me.(sentRequests := me.sentRequests + [address])]
                                 [address := you.(receivedRequests := you.receivedRequests + [sender])]),
        []))
  }

  method CreateRequest(s: Storage, sender: Addr, address: Addr) returns (r: Result<seq<Message>, Error>)
    modifies s`profiles
    ensures Realises(r, s.View(), RequestOutcome(old(s.View()), sender, address))
  {
    if sender == address {
      return Err(Unauthorized);
    }
    if sender !in s.profiles {
      return Err(NoProfile);
    }
    var info := s.profiles[sender];
    if address in info.sentRequests {
      return Err(RequestAlreadySent);
    }
    // the source's "already in contact" test reads the sent requests a second time
    info := info.(sentRequests := info.sentRequests + [address]);
    s.profiles := s.profiles[sender := info];
    if address !in s.profiles {
      return Err(NoCounterpartyProfile);
    }
    var requested := s.profiles[address];
    requested := requested.(receivedRequests := requested.receivedRequests + [sender]);
    s.profiles := s.profiles[address := requested];
    return Ok([]);
  }

  /** Accepting moves the request, on both sides, to the contacts; a request recorded on one side only panics. */
  function AcceptOutcome(s: Store, sender: Addr, funds: seq<Coin>, address: Addr): Outcome {
    if funds != [] then Err(FundsNotAccepted)
    else if sender !in s.profiles then Err(NoProfile)
    else if address !in s.profiles[sender].receivedRequests then Err(NoRequestFound)
    else
      var me := s.profiles[sender];
      var mine := s.profiles[sender := me.(receivedRequests := RemoveFirst(me.receivedRequests, address),
                                           contacts := me.contacts + [address])];
      if address !in mine then Err(NoCounterpartyProfile)
      else
        var you := mine[address];
        if sender !in you.sentRequests then Err(Panic)
        else
          Ok(Effect(
            s.(profiles := mine[address := you.(sentRequests := RemoveFirst(you.sentRequests, sender),
                                                contacts := you.contacts + [sender])]),
            []))
  }

  /** The position of the first occurrence of `x`, or the length of the list. */
  method FindIndex(list: seq<Addr>, x: Addr) returns (index: nat, found: bool)
    ensures found <==> x in list
    ensures if found then index < |list| && list[index] == x && x !in list[..index] else index == |list|
  {
    index, found := 0, false;
    while index < |list|
      invariant index <= |list| && x !in list[..index]
    {
      if list[index] == x {
        found := true;
        break;
      }
      index := index + 1;
    }
    assert list[..|list|] == list;
  }

  method AcceptRequest(s: Storage, sender: Addr, funds: seq<Coin>, address: Addr)
    returns (r: Result<seq<Message>, Error>)
    modifies s`profiles
    ensures Realises(r, s.View(), AcceptOutcome(old(s.View()), sender, funds, address))
  {
    if funds != [] {
      return Err(FundsNotAccepted);
    }
    if sender !in s.profiles {
      return Err(NoProfile);
    }
    var info := s.profiles[sender];
    var index, present := FindIndex(info.receivedRequests, address);
    if !present {
      return Err(NoRequestFound);
    }
    RemoveAtFirstIndex(info.receivedRequests, address, index);
    info := info.(receivedRequests := info.receivedRequests[..index] + info.receivedRequests[index + 1..]);
    info := info.(contacts := info.contacts + [address]);
    s.profiles := s.profiles[sender := info];
    if address !in s.profiles {
      return Err(NoCounterpartyProfile);
    }
    var requested := s.profiles[address];
    index, present := FindIndex(requested.sentRequests, sender);
    if index == |requested.sentRequests| {
      return Err(Panic);
    }
    RemoveAtFirstIndex(requested.sentRequests, sender, index);
    requested := requested.(sentRequests := requested.sentRequests[..index] + requested.sentRequests[index + 1..]);
    requested := requested.(contacts := requested.contacts + [sender]);
    s.profiles := s.profiles[address := requested];
    return Ok([]);
  }

  /** A new profile has no requests, contacts or invoices, and is approved from the start. */
  function NewProfile(sender: Addr, name: string, emailId: string, phoneNumber: string, companyName: string,
                      address: string): ContactInfo {
    ContactInfo(name, companyName, address, phoneNumber, sender, emailId, [], [], [], Approved, [], [])
  }

  function ProfileOutcome(s: Store, sender: Addr, funds: seq<Coin>, profile: ContactInfo): Outcome {
    if funds != [] then Err(FundsNotAccepted)
    else if sender in s.profiles then Err(ProfileExists)
    else Ok(Effect(s.(profiles := s.profiles[sender := profile]), []))
  }

  method CreateProfile(s: Storage, sender: Addr, funds: seq<Coin>, name: string, emailId: string,
                       phoneNumber: string, companyName: string, address: string)
    returns (r: Result<seq<Message>, Error>)
    modifies s`profiles
    ensures Realises(r, s.View(), ProfileOutcome(old(s.View()), sender, funds,
                                                 NewProfile(sender, name, emailId, phoneNumber, companyName, address)))
  {
    if funds != [] {
      return Err(FundsNotAccepted);
    }
    if sender in s.profiles {
      return Err(ProfileExists);
    }
    s.profiles := s.profiles[sender := NewProfile(sender, name, emailId, phoneNumber, companyName, address)];
    return Ok([]);
  }
}
