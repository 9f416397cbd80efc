/** The contracts that messages go to: cw721 token collections, as far as one minter's messages see them, and the
    bank. */
module Tokens {
  import opened Common
  import opened State

  /** A token's owner, and whether the owner lets the invoice contract move it. */
  datatype Token = Token(owner: Addr, approved: bool)

  /** The collections in which the invoice contract is the minter, and every token by its collection and id. */
  datatype Collections = Collections(minter: set<Addr>, tokens: map<(Addr, U64), Token>) {
    function Owner(collection: Addr, id: U64): Option<Addr> {
      if (collection, id) in tokens then Some(tokens[(collection, id)].owner) else None
    }

    /** `contract` may transfer the token: as its owner, or with the owner's approval. */
    predicate Movable(contract: Addr, collection: Addr, id: U64) {
      && (collection, id) in tokens
      && (tokens[(collection, id)].owner == contract || tokens[(collection, id)].approved)
    }

    /** Only the minter mints, and an id once; a token moves only as above; the bank's answer is a parameter. */
    predicate Takes(contract: Addr, m: Message, bankAccepts: bool) {
      match m
      case Mint(collection, id, _) => collection in minter && (collection, id) !in tokens
      case TransferNft(collection, id, _) => Movable(contract, collection, id)
      case Send(_, _) => bankAccepts
    }

    /** A new owner has approved nobody. */
    function After(m: Message): Collections {
      match m
      case Mint(collection, id, owner) => this.(tokens := tokens[(collection, id) := Token(owner, false)])
      case TransferNft(collection, id, to) => this.(tokens := tokens[(collection, id) := Token(to, false)])
      case Send(_, _) => this
    }

    /** All messages in order; `None` as soon as one of them is refused. */
    function Deliver(contract: Addr, messages: seq<Message>, bankAccepts: bool): Option<Collections>
      decreases |messages|
    {
      if messages == [] then Some(this)
      else if !Takes(contract, messages[0], bankAccepts) then None
      else After(messages[0]).Deliver(contract, messages[1..], bankAccepts)
    }

    /** Others act on their own tokens, and mint where the contract is not the minter. */
    predicate OpenToOthers(contract: Addr, collection: Addr, id: U64) {
      if (collection, id) in tokens then tokens[(collection, id)].owner != contract else collection !in minter
    }

    /** Others create, transfer, approve or burn one token. */
    function Changed(collection: Addr, id: U64, now: Option<Token>): Collections {
      match now
      case Some(token) => this.(tokens := tokens[(collection, id) := token])
      case None => this.(tokens := tokens - {(collection, id)})
    }
  }

  lemma DeliverOne(c: Collections, contract: Addr, m: Message, bankAccepts: bool)
    ensures c.Deliver(contract, [m], bankAccepts) ==
            if c.Takes(contract, m, bankAccepts) then Some(c.After(m)) else None
  {
    assert [m][1..] == [];
  }

  lemma DeliverTwo(c: Collections, contract: Addr, m: Message, m': Message, bankAccepts: bool)
    ensures c.Deliver(contract, [m, m'], bankAccepts) ==
            if c.Takes(contract, m, bankAccepts) then c.After(m).Deliver(contract, [m'], bankAccepts) else None
  {
    assert [m, m'][1..] == [m'];
  }

  /** The tokens with one id, in all collections, are the same. */
  ghost predicate SameTokens(c: Collections, c': Collections, id: U64) {
    && c'.minter == c.minter
    && forall x: Addr {:trigger c'.Owner(x, id)} {:trigger c.Owner(x, id)} ::
         c'.Owner(x, id) == c.Owner(x, id)
  }

  lemma {:induction false} DeliverElsewhere(
    c: Collections, contract: Addr, messages: seq<Message>, bankAccepts: bool, id: U64)
    requires c.Deliver(contract, messages, bankAccepts).Some?
    requires forall m :: m in messages && !m.Send? ==> m.token != id
    ensures SameTokens(c, c.Deliver(contract, messages, bankAccepts).value, id)
    decreases |messages|
  {
    if messages == [] {
    } else {
      DeliverElsewhere(c.After(messages[0]), contract, messages[1..], bankAccepts, id);
    }
  }

  lemma {:induction false} DeliverKeepsMinter(
    c: Collections, contract: Addr, messages: seq<Message>, bankAccepts: bool)
    requires c.Deliver(contract, messages, bankAccepts).Some?
    ensures c.Deliver(contract, messages, bankAccepts).value.minter == c.minter
    decreases |messages|
  {
    if messages == [] {
    } else {
      DeliverKeepsMinter(c.After(messages[0]), contract, messages[1..], bankAccepts);
    }
  }
}
