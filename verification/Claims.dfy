/** Unbonding claims of packages/controllers: per-address lists of claims, released greedily in order. */
module Claims {
  import opened Common

  datatype Claim = Claim(amount: U128, releaseAt: Expiration)

  function AmountOf(claims: seq<Claim>): nat {
    if claims == [] then 0 else claims[0].amount + AmountOf(claims[1..])
  }

  function Mature(claims: seq<Claim>, block: BlockInfo): seq<Claim> {
    if claims == [] then []
    else if claims[0].releaseAt.IsExpired(block) then [claims[0]] + Mature(claims[1..], block)
    else Mature(claims[1..], block)
  }

  function Immature(claims: seq<Claim>, block: BlockInfo): seq<Claim> {
    if claims == [] then []
    else if claims[0].releaseAt.IsExpired(block) then Immature(claims[1..], block)
    else [claims[0]] + Immature(claims[1..], block)
  }

  /** What one call releases, what it keeps, and the running total it ends with. */
  datatype Release = Release(released: seq<Claim>, waiting: seq<Claim>, total: U128)

  function Keep(c: Claim, rest: Option<Release>): Option<Release> {
    var r :- rest;
    Some(r.(waiting := [c] + r.waiting))
  }

  function Send(c: Claim, rest: Option<Release>): Option<Release> {
    var r :- rest;
    Some(r.(released := [c] + r.released))
  }

  /** The greedy partition from a running total `sent`: a mature claim is taken when it still fits under the
      cap. The sum is taken before it is compared, so it can panic (`None`). */
  function Greedy(claims: seq<Claim>, block: BlockInfo, cap: Option<U128>, sent: U128): Option<Release> {
    if claims == [] then Some(Release([], [], sent))
    else
      var c, rest := claims[0], claims[1..];
      if !c.releaseAt.IsExpired(block) then Keep(c, Greedy(rest, block, cap, sent))
      else if sent + c.amount > U128_MAX then None
      else if cap.Some? && sent + c.amount > cap.value then Keep(c, Greedy(rest, block, cap, sent))
      else Send(c, Greedy(rest, block, cap, sent + c.amount))
  }

  datatype Op =
    | Create(addr: Addr, claim: Claim)
    | Collect(addr: Addr, block: BlockInfo, cap: Option<U128>)

  function At<T>(m: map<Addr, seq<T>>, addr: Addr): seq<T> {
    if addr in m then m[addr] else []
  }

  /** The stored lists after a call: only the list of the calling address is rewritten, and a panic rewrites nothing. */
  function StoreAfter(claims: map<Addr, seq<Claim>>, op: Op): map<Addr, seq<Claim>> {
    match op
    case Create(addr, claim) => claims[addr := At(claims, addr) + [claim]]
    case Collect(addr, block, cap) =>
      match Greedy(At(claims, addr), block, cap, 0)
      case None => claims
      case Some(r) => claims[addr := r.waiting]
  }

  /** What is decided so far, followed by what is still to be decided. */
  ghost function Joined(released: seq<Claim>, waiting: seq<Claim>, rest: Option<Release>): Option<Release> {
    var r :- rest;
    Some(Release(released + r.released, waiting + r.waiting, r.total))
  }

  lemma JoinedNext(released: seq<Claim>, waiting: seq<Claim>, c: Claim, rest: Option<Release>)
    ensures Joined(released, waiting, Keep(c, rest)) == Joined(released, waiting + [c], rest)
    ensures Joined(released, waiting, Send(c, rest)) == Joined(released + [c], waiting, rest)
  {
    if rest.Some? {
      assert waiting + ([c] + rest.value.waiting) == waiting + [c] + rest.value.waiting;
      assert released + ([c] + rest.value.released) == released + [c] + rest.value.released;
    }
  }

  lemma JoinedNothing(rest: Option<Release>)
    ensures Joined([], [], rest) == rest
  {
    if rest.Some? {
      assert [] + rest.value.released == rest.value.released && [] + rest.value.waiting == rest.value.waiting;
    }
  }

  class Claims {
    var claims: map<Addr, seq<Claim>>

    constructor ()
      ensures claims == map[]
    {
      claims := map[];
    }

    method CreateClaim(addr: Addr, amount: U128, releaseAt: Expiration)
      modifies this
      ensures claims == StoreAfter(old(claims), Create(addr, Claim(amount, releaseAt)))
      ensures addr in claims && claims[addr] != [] && claims[addr][|claims[addr]| - 1] == Claim(amount, releaseAt)
      ensures claims[addr][..|claims[addr]| - 1] == if addr in old(claims) then old(claims)[addr] else []
      ensures forall a :: a != addr ==> (a in claims <==> a in old(claims))
      ensures forall a :: a != addr && a in claims ==> claims[a] == old(claims)[a]
    {
      var list := if addr in claims then claims[addr] else [];
      list := list + [Claim(amount, releaseAt)];
      claims := claims[addr := list];
    }

    /** Walks the list once with a running total, keeping the claims not sent; the list is rewritten even when
        nothing was due. A panic leaves the storage as it was. */
    method ClaimTokens(addr: Addr, block: BlockInfo, cap: Option<U128>) returns (r: Option<U128>)
      modifies this
      ensures claims == StoreAfter(old(claims), Collect(addr, block, cap))
      ensures var outcome := Greedy(At(old(claims), addr), block, cap, 0);
              && r == (if outcome.Some? then Some(outcome.value.total) else None)
              && claims == if outcome.Some? then old(claims)[addr := outcome.value.waiting] else old(claims)
    {
      var list := if addr in claims then claims[addr] else [];
      var toSend: U128 := 0;
      ghost var send: seq<Claim> := [];
      var waiting: seq<Claim> := [];
      JoinedNothing(Greedy(list, block, cap, 0));
      assert list[0..] == list;
      for i := 0 to |list|
        invariant claims == old(claims)
        invariant Greedy(list, block, cap, 0) == Joined(send, waiting, Greedy(list[i..], block, cap, toSend))
      {
        var c := list[i];
        assert list[i..][0] == c && list[i..][1..] == list[i + 1..];
        JoinedNext(send, waiting, c, Greedy(list[i + 1..], block, cap, toSend));
        if c.releaseAt.IsExpired(block) {
          if toSend + c.amount > U128_MAX {
            assert Greedy(list, block, cap, 0) == None;
            return None;
          }
          if cap.Some? && toSend + c.amount > cap.value {
            waiting := waiting + [c];
          } else {
            toSend := toSend + c.amount;
            JoinedNext(send, waiting, c, Greedy(list[i + 1..], block, cap, toSend));
            send := send + [c];
          }
        } else {
          waiting := waiting + [c];
        }
      }
      assert list[|list|..] == [] && send + [] == send && waiting + [] == waiting;
      claims := claims[addr := waiting];
      return Some(toSend);
    }

    method QueryClaims(addr: Addr) returns (r: seq<Claim>)
      ensures r == if addr in claims then claims[addr] else []
    {
      if addr in claims {
        r := claims[addr];
      } else {
        r := [];
      }
    }
  }

  // ---------------------------------------------------------------- one call

  lemma {:induction false} AmountOfAppend(a: seq<Claim>, b: seq<Claim>)
    ensures AmountOf(a + b) == AmountOf(a) + AmountOf(b)
    decreases |a|
  {
    if a == [] {
      assert a + b == b;
    } else {
      assert (a + b)[1..] == a[1..] + b;
      AmountOfAppend(a[1..], b);
    }
  }

  /** Nothing is lost, duplicated or reordered; only mature claims go; the total is their sum and stays under
      the cap; and every mature claim left behind would break the cap. */
  lemma {:induction false} GreedyIsConservingAndMaximal(
    claims: seq<Claim>, block: BlockInfo, cap: Option<U128>, sent: U128, r: Release)
    requires Greedy(claims, block, cap, sent) == Some(r)
    requires cap.Some? ==> sent <= cap.value
    ensures Interleaves(claims, r.released, r.waiting)
    ensures r.total == sent + AmountOf(r.released)
    ensures cap.Some? ==> r.total <= cap.value
    ensures forall c :: c in r.released ==> c.releaseAt.IsExpired(block)
    ensures forall c :: c in r.waiting && c.releaseAt.IsExpired(block) ==> cap.Some? && r.total + c.amount > cap.value
    decreases |claims|
  {
    if claims == [] {
    } else {
      var c, rest := claims[0], claims[1..];
      var taken := c.releaseAt.IsExpired(block) && !(cap.Some? && sent + c.amount > cap.value);
      var sent' := if taken then sent + c.amount else sent;
      var inner := Greedy(rest, block, cap, sent').value;
      GreedyIsConservingAndMaximal(rest, block, cap, sent', inner);
      if taken {
        assert r.released == [c] + inner.released && r.waiting == inner.waiting;
        assert r.released[1..] == inner.released;
      } else {
        assert r.waiting == [c] + inner.waiting && r.released == inner.released;
        assert r.waiting[1..] == inner.waiting;
      }
    }
  }

  /** One more claim after a finished partition is decided by the total released so far. */
  function Decided(soFar: Option<Release>, last: Claim, block: BlockInfo, cap: Option<U128>): Option<Release> {
    var r :- soFar;
    if !last.releaseAt.IsExpired(block) then Some(r.(waiting := r.waiting + [last]))
    else if r.total + last.amount > U128_MAX then None
    else if cap.Some? && r.total + last.amount > cap.value then Some(r.(waiting := r.waiting + [last]))
    else Some(Release(r.released + [last], r.waiting, r.total + last.amount))
  }

  lemma DecidedAfter(c: Claim, rest: Option<Release>, last: Claim, block: BlockInfo, cap: Option<U128>)
    ensures Decided(Keep(c, rest), last, block, cap) == Keep(c, Decided(rest, last, block, cap))
    ensures Decided(Send(c, rest), last, block, cap) == Send(c, Decided(rest, last, block, cap))
  {
    if rest.Some? {
      assert [c] + rest.value.waiting + [last] == [c] + (rest.value.waiting + [last]);
      assert [c] + rest.value.released + [last] == [c] + (rest.value.released + [last]);
    }
  }

  /** Read from the other end: each claim is decided by the total of the claims released before it. */
  lemma {:induction false} GreedyDecidesByRunningTotal(
    claims: seq<Claim>, last: Claim, block: BlockInfo, cap: Option<U128>, sent: U128)
    ensures Greedy(claims + [last], block, cap, sent) == Decided(Greedy(claims, block, cap, sent), last, block, cap)
    decreases |claims|
  {
    if claims == [] {
      assert claims + [last] == [last];
      assert [last][1..] == [] && [last] + [] == [] + [last];
    } else {
      var c, rest := claims[0], claims[1..];
      assert (claims + [last])[0] == c && (claims + [last])[1..] == rest + [last];
      var taken := c.releaseAt.IsExpired(block) && !(cap.Some? && sent + c.amount > cap.value);
      if !c.releaseAt.IsExpired(block) || sent + c.amount <= U128_MAX {
        var sent' := if taken then sent + c.amount else sent;
        GreedyDecidesByRunningTotal(rest, last, block, cap, sent');
        DecidedAfter(c, Greedy(rest, block, cap, sent'), last, block, cap);
      }
    }
  }

  lemma {:induction false} NothingFits(claims: seq<Claim>, block: BlockInfo, cap: Option<U128>)
    requires forall c :: c in claims && c.releaseAt.IsExpired(block) ==> cap.Some? && c.amount > cap.value
    ensures Greedy(claims, block, cap, 0) == Some(Release([], claims, 0))
    decreases |claims|
  {
    if claims == [] {
    } else {
      assert claims == [claims[0]] + claims[1..];
      NothingFits(claims[1..], block, cap);
    }
  }

  /** A second call at the same block, with what is left of the cap, releases nothing and changes nothing. */
  lemma SecondCallIsIdle(claims: seq<Claim>, block: BlockInfo, cap: Option<U128>, r: Release)
    requires Greedy(claims, block, cap, 0) == Some(r)
    ensures cap.Some? ==> r.total <= cap.value
    ensures var left := if cap.Some? then Some(cap.value - r.total) else None;
            Greedy(r.waiting, block, left, 0) == Some(Release([], r.waiting, 0))
  {
    GreedyIsConservingAndMaximal(claims, block, cap, 0, r);
    NothingFits(r.waiting, block, if cap.Some? then Some(cap.value - r.total) else None);
  }

  /** A call cannot panic when the mature claims together fit in 128 bits; without a cap it panics exactly
      when they do not. */
  lemma {:induction false} PanicsOnlyOnOverflow(claims: seq<Claim>, block: BlockInfo, cap: Option<U128>, sent: U128)
    ensures sent + AmountOf(Mature(claims, block)) <= U128_MAX ==> Greedy(claims, block, cap, sent).Some?
    ensures cap.None? ==>
              (Greedy(claims, block, cap, sent).None? <==> sent + AmountOf(Mature(claims, block)) > U128_MAX)
    decreases |claims|
  {
    if claims == [] {
    } else {
      var c, rest := claims[0], claims[1..];
      var m := Mature(rest, block);
      if c.releaseAt.IsExpired(block) {
        assert Mature(claims, block) == [c] + m && ([c] + m)[1..] == m;
        PanicsOnlyOnOverflow(rest, block, cap, sent);
        if sent + c.amount <= U128_MAX {
          PanicsOnlyOnOverflow(rest, block, cap, sent + c.amount);
        }
      } else {
        assert Mature(claims, block) == m;
        PanicsOnlyOnOverflow(rest, block, cap, sent);
      }
    }
  }

  // ---------------------------------------------------------------- repeated calls at one block

  function AfterCalls(claims: seq<Claim>, block: BlockInfo, cap: Option<U128>, calls: nat): seq<Claim>
    decreases calls
  {
    if calls == 0 then claims
    else
      match Greedy(claims, block, cap, 0)
      case None => claims
      case Some(r) => AfterCalls(r.waiting, block, cap, calls - 1)
  }

  function PaidByCalls(claims: seq<Claim>, block: BlockInfo, cap: Option<U128>, calls: nat): nat
    decreases calls
  {
    if calls == 0 then 0
    else
      match Greedy(claims, block, cap, 0)
      case None => 0
      case Some(r) => r.total + PaidByCalls(r.waiting, block, cap, calls - 1)
  }

  predicate FitsCap(c: Claim, cap: Option<U128>) {
    cap.Some? ==> c.amount <= cap.value
  }

  /** One call keeps every immature claim in place and moves value from the mature ones to the payout. */
  lemma {:induction false} CallOnMature(claims: seq<Claim>, block: BlockInfo, cap: Option<U128>, sent: U128, r: Release)
    requires Greedy(claims, block, cap, sent) == Some(r)
    ensures Immature(r.waiting, block) == Immature(claims, block)
    ensures |Mature(r.waiting, block)| + |r.released| == |Mature(claims, block)|
    ensures AmountOf(Mature(r.waiting, block)) + r.total == AmountOf(Mature(claims, block)) + sent
    ensures forall c :: c in Mature(r.waiting, block) ==> c in Mature(claims, block)
    ensures forall c :: c in Mature(claims, block) && !FitsCap(c, cap) ==> c in Mature(r.waiting, block)
    decreases |claims|
  {
    if claims == [] {
    } else {
      var c, rest := claims[0], claims[1..];
      var m := Mature(rest, block);
      var taken := c.releaseAt.IsExpired(block) && !(cap.Some? && sent + c.amount > cap.value);
      var sent' := if taken then sent + c.amount else sent;
      var inner := Greedy(rest, block, cap, sent').value;
      CallOnMature(rest, block, cap, sent', inner);
      if c.releaseAt.IsExpired(block) {
        assert Mature(claims, block) == [c] + m && ([c] + m)[1..] == m;
      }
      if taken {
        assert r.waiting == inner.waiting;
      } else {
        assert r.waiting == [c] + inner.waiting && r.waiting[1..] == inner.waiting;
        var mw := Mature(inner.waiting, block);
        assert ([c] + mw)[1..] == mw;
      }
    }
  }

  lemma {:induction false} SomethingIsReleased(claims: seq<Claim>, block: BlockInfo, cap: Option<U128>, r: Release)
    requires Greedy(claims, block, cap, 0) == Some(r)
    requires Mature(claims, block) != []
    requires forall c :: c in Mature(claims, block) ==> FitsCap(c, cap)
    ensures r.released != []
    decreases |claims|
  {
    var c, rest := claims[0], claims[1..];
    if c.releaseAt.IsExpired(block) {
      assert c in Mature(claims, block);
    } else {
      SomethingIsReleased(rest, block, cap, Greedy(rest, block, cap, 0).value);
    }
  }

  lemma {:induction false} TooLargeStays(claims: seq<Claim>, block: BlockInfo, cap: Option<U128>, calls: nat, c: Claim)
    requires c in Mature(claims, block) && !FitsCap(c, cap)
    ensures c in Mature(AfterCalls(claims, block, cap, calls), block)
    decreases calls
  {
    if calls == 0 || Greedy(claims, block, cap, 0).None? {
    } else {
      var r := Greedy(claims, block, cap, 0).value;
      CallOnMature(claims, block, cap, 0, r);
      TooLargeStays(r.waiting, block, cap, calls - 1, c);
    }
  }

  predicate Drained(claims: seq<Claim>, block: BlockInfo, cap: Option<U128>, calls: nat) {
    && Mature(AfterCalls(claims, block, cap, calls), block) == []
    && Immature(AfterCalls(claims, block, cap, calls), block) == Immature(claims, block)
    && PaidByCalls(claims, block, cap, calls) == AmountOf(Mature(claims, block))
  }

  /** One of these calls panics; all later ones then do too, for the storage stays as it is. */
  predicate SomeCallPanics(claims: seq<Claim>, block: BlockInfo, cap: Option<U128>, calls: nat)
    decreases calls
  {
    calls > 0 &&
    match Greedy(claims, block, cap, 0)
    case None => true
    case Some(r) => SomeCallPanics(r.waiting, block, cap, calls - 1)
  }

  lemma {:induction false} CallsDrain(claims: seq<Claim>, block: BlockInfo, cap: Option<U128>, calls: nat)
    requires !SomeCallPanics(claims, block, cap, calls)
    requires forall c :: c in Mature(claims, block) ==> FitsCap(c, cap)
    requires calls >= |Mature(claims, block)|
    ensures Drained(claims, block, cap, calls)
    decreases calls
  {
    if calls == 0 {
    } else {
      var r := Greedy(claims, block, cap, 0).value;
      CallOnMature(claims, block, cap, 0, r);
      if Mature(claims, block) != [] {
        SomethingIsReleased(claims, block, cap, r);
      }
      CallsDrain(r.waiting, block, cap, calls - 1);
    }
  }

  lemma {:induction false} PanicLeavesMature(claims: seq<Claim>, block: BlockInfo, cap: Option<U128>, calls: nat)
    requires SomeCallPanics(claims, block, cap, calls)
    ensures Mature(AfterCalls(claims, block, cap, calls), block) != []
    decreases calls
  {
    match Greedy(claims, block, cap, 0)
    case None => PanicsOnlyOnOverflow(claims, block, cap, 0);
    case Some(r) => PanicLeavesMature(r.waiting, block, cap, calls - 1);
  }

  lemma {:induction false} NoCallPanicsWhenMatureFits(
    claims: seq<Claim>, block: BlockInfo, cap: Option<U128>, calls: nat)
    requires AmountOf(Mature(claims, block)) <= U128_MAX
    ensures !SomeCallPanics(claims, block, cap, calls)
    decreases calls
  {
    if calls == 0 {
    } else {
      PanicsOnlyOnOverflow(claims, block, cap, 0);
      var r := Greedy(claims, block, cap, 0).value;
      CallOnMature(claims, block, cap, 0, r);
      NoCallPanicsWhenMatureFits(r.waiting, block, cap, calls - 1);
    }
  }

  /** Above the cap there is room for any one mature claim. */
  predicate RoomAbove(cap: U128, claims: seq<Claim>, block: BlockInfo) {
    forall c :: c in Mature(claims, block) ==> cap + c.amount <= U128_MAX
  }

  lemma {:induction false} RoomPreventsPanic(claims: seq<Claim>, block: BlockInfo, cap: U128, sent: U128)
    requires RoomAbove(cap, claims, block) && sent <= cap
    ensures Greedy(claims, block, Some(cap), sent).Some?
    decreases |claims|
  {
    if claims == [] {
    } else {
      var c, rest := claims[0], claims[1..];
      if c.releaseAt.IsExpired(block) {
        assert Mature(claims, block) == [c] + Mature(rest, block);
        RoomPreventsPanic(rest, block, cap, if sent + c.amount <= cap then sent + c.amount else sent);
      } else {
        RoomPreventsPanic(rest, block, cap, sent);
      }
    }
  }

  lemma {:induction false} NoCallPanicsWithRoom(claims: seq<Claim>, block: BlockInfo, cap: U128, calls: nat)
    requires RoomAbove(cap, claims, block)
    ensures !SomeCallPanics(claims, block, Some(cap), calls)
    decreases calls
  {
    if calls == 0 {
    } else {
      RoomPreventsPanic(claims, block, cap, 0);
      var r := Greedy(claims, block, Some(cap), 0).value;
      CallOnMature(claims, block, Some(cap), 0, r);
      NoCallPanicsWithRoom(r.waiting, block, cap, calls - 1);
    }
  }

  /** At a fixed block, as many calls as there are mature claims pay all of them and leave the immature ones as
      they were, if and only if each mature claim alone fits under the cap and no call overflows; none can overflow
      when the mature claims fit in 128 bits together, or when any one of them fits on top of the cap. */
  lemma CallsDrainIff(claims: seq<Claim>, block: BlockInfo, cap: Option<U128>)
    ensures var calls := |Mature(claims, block)|;
            (Drained(claims, block, cap, calls)
             <==> (forall c :: c in Mature(claims, block) ==> FitsCap(c, cap))
                  && !SomeCallPanics(claims, block, cap, calls))
    ensures AmountOf(Mature(claims, block)) <= U128_MAX || (cap.Some? && RoomAbove(cap.value, claims, block)) ==>
              !SomeCallPanics(claims, block, cap, |Mature(claims, block)|)
  {
    var calls := |Mature(claims, block)|;
    if c :| c in Mature(claims, block) && !FitsCap(c, cap) {
      TooLargeStays(claims, block, cap, calls, c);
    } else if SomeCallPanics(claims, block, cap, calls) {
      PanicLeavesMature(claims, block, cap, calls);
    } else {
      CallsDrain(claims, block, cap, calls);
    }
    if AmountOf(Mature(claims, block)) <= U128_MAX {
      NoCallPanicsWhenMatureFits(claims, block, cap, calls);
    } else if cap.Some? && RoomAbove(cap.value, claims, block) {
      NoCallPanicsWithRoom(claims, block, cap.value, calls);
    }
  }

  /** Whether the calls pay everything, told from the list alone: without a cap, exactly when the mature claims fit in
      128 bits together; under a cap that leaves room, or when they fit, exactly when each fits under the cap. */
  lemma DrainsIff(claims: seq<Claim>, block: BlockInfo, cap: Option<U128>)
    ensures var calls, mature := |Mature(claims, block)|, Mature(claims, block);
            && (cap.None? ==> (Drained(claims, block, cap, calls) <==> AmountOf(mature) <= U128_MAX))
            && (cap.Some? && (RoomAbove(cap.value, claims, block) || AmountOf(mature) <= U128_MAX) ==>
                  (Drained(claims, block, cap, calls) <==> forall c :: c in mature ==> c.amount <= cap.value))
  {
    var calls, mature := |Mature(claims, block)|, Mature(claims, block);
    CallsDrainIff(claims, block, cap);
    if AmountOf(mature) > U128_MAX && cap.None? {
      PanicsOnlyOnOverflow(claims, block, cap, 0);
      assert mature != [];
    }
    hide Drained, SomeCallPanics, AmountOf, Mature, Greedy;
    assert forall c :: c in mature ==> (FitsCap(c, cap) <==> (cap.Some? ==> c.amount <= cap.value));
  }

  // ---------------------------------------------------------------- runs over all addresses

  datatype Payment = Payment(claim: Claim, block: BlockInfo)

  /** The stored lists, with what was created for and paid to each address so far. */
  datatype Book = Book(
    claims: map<Addr, seq<Claim>>, created: map<Addr, seq<Claim>>, paid: map<Addr, seq<Payment>>)

  function PaymentsOf(released: seq<Claim>, block: BlockInfo): seq<Payment> {
    seq(|released|, i requires 0 <= i < |released| => Payment(released[i], block))
  }

  function ClaimsOf(payments: seq<Payment>): seq<Claim> {
    seq(|payments|, i requires 0 <= i < |payments| => payments[i].claim)
  }

  function Step(b: Book, op: Op): Book {
    var b' := b.(claims := StoreAfter(b.claims, op));
    match op
    case Create(addr, claim) => b'.(created := b.created[addr := At(b.created, addr) + [claim]])
    case Collect(addr, block, cap) =>
      match Greedy(At(b.claims, addr), block, cap, 0)
      case None => b'
      case Some(r) => b'.(paid := b.paid[addr := At(b.paid, addr) + PaymentsOf(r.released, block)])
  }

  function RunBook(b: Book, ops: seq<Op>): Book
    decreases |ops|
  {
    if ops == [] then b else RunBook(Step(b, ops[0]), ops[1..])
  }

  /** `part` is `whole` with some elements left out. */
  predicate Subsequence<T(==)>(part: seq<T>, whole: seq<T>)
    decreases |whole|
  {
    if part == [] then true
    else
      whole != []
      && ((part[0] == whole[0] && Subsequence(part[1..], whole[1..])) || Subsequence(part, whole[1..]))
  }

  lemma {:induction false} SubsequenceOfItself<T>(list: seq<T>)
    ensures Subsequence(list, list)
    decreases |list|
  {
    if list == [] {
    } else {
      SubsequenceOfItself(list[1..]);
    }
  }

  lemma {:induction false} SubsequenceWithLast<T>(part: seq<T>, whole: seq<T>, last: T)
    requires Subsequence(part, whole)
    ensures Subsequence(part, whole + [last]) && Subsequence(part + [last], whole + [last])
    decreases |whole|
  {
    if whole == [] {
      assert part + [last] == [last] && whole + [last] == [last];
    } else {
      assert (whole + [last])[1..] == whole[1..] + [last];
      if part == [] {
        SubsequenceWithLast(part, whole[1..], last);
        assert part + [last] == [last];
      } else if part[0] == whole[0] && Subsequence(part[1..], whole[1..]) {
        SubsequenceWithLast(part[1..], whole[1..], last);
        assert (part + [last])[1..] == part[1..] + [last];
      } else {
        SubsequenceWithLast(part, whole[1..], last);
      }
    }
  }

  lemma {:induction false} SubsequenceTransitive<T>(part: seq<T>, middle: seq<T>, whole: seq<T>)
    requires Subsequence(part, middle) && Subsequence(middle, whole)
    ensures Subsequence(part, whole)
    decreases |whole|
  {
    if part == [] {
    } else if middle[0] == whole[0] && Subsequence(middle[1..], whole[1..]) {
      if part[0] == middle[0] && Subsequence(part[1..], middle[1..]) {
        SubsequenceTransitive(part[1..], middle[1..], whole[1..]);
      } else {
        SubsequenceTransitive(part, middle[1..], whole[1..]);
      }
    } else {
      SubsequenceTransitive(part, middle, whole[1..]);
    }
  }

  lemma {:induction false} MergedIsSubsequence<T>(whole: seq<T>, left: seq<T>, right: seq<T>)
    requires Interleaves(whole, left, right)
    ensures Subsequence(right, whole)
    decreases |whole|
  {
    if whole == [] {
    } else if left != [] && left[0] == whole[0] && Interleaves(whole[1..], left[1..], right) {
      MergedIsSubsequence(whole[1..], left[1..], right);
    } else {
      MergedIsSubsequence(whole[1..], left, right[1..]);
    }
  }

  /** Every claim created is outstanding or paid, exactly once, and no payment was early. */
  ghost predicate Accounted(created: seq<Claim>, paid: seq<Payment>, outstanding: seq<Claim>) {
    && multiset(created) == multiset(ClaimsOf(paid)) + multiset(outstanding)
    && AmountOf(created) == AmountOf(ClaimsOf(paid)) + AmountOf(outstanding)
    && forall p :: p in paid ==> p.claim.releaseAt.IsExpired(p.block)
  }

  ghost predicate Balanced(b: Book, addr: Addr) {
    Accounted(At(b.created, addr), At(b.paid, addr), At(b.claims, addr))
  }

  lemma {:induction false} InterleavingKeepsAmount(whole: seq<Claim>, left: seq<Claim>, right: seq<Claim>)
    requires Interleaves(whole, left, right)
    ensures AmountOf(whole) == AmountOf(left) + AmountOf(right)
    decreases |whole|
  {
    if whole == [] {
    } else {
      if left != [] && left[0] == whole[0] && Interleaves(whole[1..], left[1..], right) {
        InterleavingKeepsAmount(whole[1..], left[1..], right);
      } else {
        InterleavingKeepsAmount(whole[1..], left, right[1..]);
      }
    }
  }

  lemma CreateKeepsBalance(b: Book, claim: Claim, addr: Addr)
    requires Balanced(b, addr)
    ensures Balanced(Step(b, Create(addr, claim)), addr)
  {
    AmountOfAppend(At(b.created, addr), [claim]);
    AmountOfAppend(At(b.claims, addr), [claim]);
  }

  lemma PaymentsCarryClaims(paid: seq<Payment>, released: seq<Claim>, block: BlockInfo)
    ensures ClaimsOf(paid + PaymentsOf(released, block)) == ClaimsOf(paid) + released
    ensures forall p :: p in PaymentsOf(released, block) ==> p.claim in released && p.block == block
  {
  }

  lemma CollectKeepsAccount(
    created: seq<Claim>, paid: seq<Payment>, before: seq<Claim>, block: BlockInfo, cap: Option<U128>, r: Release)
    requires Accounted(created, paid, before) && Greedy(before, block, cap, 0) == Some(r)
    ensures Accounted(created, paid + PaymentsOf(r.released, block), r.waiting)
  {
    GreedyIsConservingAndMaximal(before, block, cap, 0, r);
    InterleavesKeepsAll(before, r.released, r.waiting);
    InterleavingKeepsAmount(before, r.released, r.waiting);
    PaymentsCarryClaims(paid, r.released, block);
    AmountOfAppend(ClaimsOf(paid), r.released);
    hide Greedy, Interleaves, AmountOf, ClaimsOf, PaymentsOf;
  }

  lemma StepKeepsBalance(b: Book, op: Op, addr: Addr)
    requires Balanced(b, addr)
    ensures Balanced(Step(b, op), addr)
  {
    if op.addr == addr {
      match op {
        case Create(_, claim) => CreateKeepsBalance(b, claim, addr);
        case Collect(_, block, cap) =>
          hide Greedy, Accounted;
          if r :| Greedy(At(b.claims, addr), block, cap, 0) == Some(r) {
            CollectKeepsAccount(At(b.created, addr), At(b.paid, addr), At(b.claims, addr), block, cap, r);
          }
      }
    } else {
      hide Greedy, Accounted;
    }
  }

  /** Over every run from empty storage: created = paid + outstanding for every address, as multisets of claims
      and in amount, and every payment happened at or after its release point. */
  lemma {:induction false} RunKeepsBalance(b: Book, ops: seq<Op>, addr: Addr)
    requires Balanced(b, addr)
    ensures Balanced(RunBook(b, ops), addr)
    decreases |ops|
  {
    if ops == [] {
    } else {
      StepKeepsBalance(b, ops[0], addr);
      RunKeepsBalance(Step(b, ops[0]), ops[1..], addr);
    }
  }

  lemma ClaimsNeverLostNorPaidTwice(ops: seq<Op>, addr: Addr)
    ensures Balanced(RunBook(Book(map[], map[], map[]), ops), addr)
  {
    RunKeepsBalance(Book(map[], map[], map[]), ops, addr);
  }

  /** The claims created for one address, first to last. */
  function CreatedFor(ops: seq<Op>, addr: Addr): seq<Claim> {
    if ops == [] then []
    else
      var before, op := CreatedFor(ops[..|ops| - 1], addr), ops[|ops| - 1];
      if op.Create? && op.addr == addr then before + [op.claim] else before
  }

  predicate Collects(ops: seq<Op>, addr: Addr) {
    exists k :: 0 <= k < |ops| && ops[k].Collect? && ops[k].addr == addr
  }

  lemma {:induction false} RunBookAppend(b: Book, ops: seq<Op>, op: Op)
    ensures RunBook(b, ops + [op]) == Step(RunBook(b, ops), op)
    decreases |ops|
  {
    hide Step;
    if ops == [] {
      assert ops + [op] == [op] && [op][1..] == [];
    } else {
      assert (ops + [op])[1..] == ops[1..] + [op];
      RunBookAppend(Step(b, ops[0]), ops[1..], op);
    }
  }

  /** One call keeps the order of the list of an address: it appends, or leaves claims out. */
  lemma StepKeepsOrder(b: Book, op: Op, addr: Addr)
    ensures var before, after := At(b.claims, addr), At(Step(b, op).claims, addr);
            if op.Create? && op.addr == addr then after == before + [op.claim]
            else Subsequence(after, before) && ((op.Collect? && op.addr == addr) || after == before)
  {
    var before := At(b.claims, addr);
    SubsequenceOfItself(before);
    if op.Collect? && op.addr == addr && Greedy(before, op.block, op.cap, 0).Some? {
      var r := Greedy(before, op.block, op.cap, 0).value;
      GreedyIsConservingAndMaximal(before, op.block, op.cap, 0, r);
      MergedIsSubsequence(before, r.released, r.waiting);
    }
    hide Greedy, Subsequence;
  }

  /** Over every run the claims outstanding for an address are in the order they were created in, and are all of them
      as long as nothing was collected there. */
  lemma {:induction false} OutstandingInOrder(ops: seq<Op>, addr: Addr)
    ensures var outstanding := At(RunBook(Book(map[], map[], map[]), ops).claims, addr);
            && Subsequence(outstanding, CreatedFor(ops, addr))
            && (!Collects(ops, addr) ==> outstanding == CreatedFor(ops, addr))
    decreases |ops|
  {
    var start := Book(map[], map[], map[]);
    if ops == [] {
    } else {
      var init, op := ops[..|ops| - 1], ops[|ops| - 1];
      assert ops == init + [op];
      hide Step, Subsequence;
      OutstandingInOrder(init, addr);
      RunBookAppend(start, init, op);
      var b := RunBook(start, init);
      var before, after := At(b.claims, addr), At(Step(b, op).claims, addr);
      StepKeepsOrder(b, op, addr);
      assert Collects(init, addr) ==> Collects(ops, addr) by {
        if k :| 0 <= k < |init| && init[k].Collect? && init[k].addr == addr {
          assert ops[k].Collect? && ops[k].addr == addr;
        }
      }
      if op.Create? && op.addr == addr {
        SubsequenceWithLast(before, CreatedFor(init, addr), op.claim);
      } else {
        SubsequenceTransitive(after, before, CreatedFor(init, addr));
      }
    }
  }

  function OpsFor(ops: seq<Op>, addr: Addr): seq<Op> {
    if ops == [] then []
    else if ops[0].addr == addr then [ops[0]] + OpsFor(ops[1..], addr)
    else OpsFor(ops[1..], addr)
  }

  ghost predicate SameAt(b: Book, b': Book, addr: Addr) {
    At(b.claims, addr) == At(b'.claims, addr) && At(b.created, addr) == At(b'.created, addr)
    && At(b.paid, addr) == At(b'.paid, addr)
  }

  lemma StepAtOneAddress(b: Book, b': Book, op: Op, addr: Addr)
    requires SameAt(b, b', addr)
    ensures SameAt(Step(b, op), if op.addr == addr then Step(b', op) else b', addr)
  {
    hide Greedy, PaymentsOf;
  }

  /** What happens to an address depends only on the calls for that address. */
  lemma {:induction false} AddressesAreIndependent(b: Book, b': Book, ops: seq<Op>, addr: Addr)
    requires SameAt(b, b', addr)
    ensures SameAt(RunBook(b, ops), RunBook(b', OpsFor(ops, addr)), addr)
    decreases |ops|
  {
    if ops == [] {
    } else {
      hide Step, SameAt;
      StepAtOneAddress(b, b', ops[0], addr);
      if ops[0].addr == addr {
        assert ([ops[0]] + OpsFor(ops[1..], addr))[1..] == OpsFor(ops[1..], addr);
        AddressesAreIndependent(Step(b, ops[0]), Step(b', ops[0]), ops[1..], addr);
      } else {
        AddressesAreIndependent(Step(b, ops[0]), b', ops[1..], addr);
      }
    }
  }
}
