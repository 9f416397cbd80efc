/** The stored types of contracts/core and its storage. */
module State {
  import opened Common

  type Denom = string

  datatype Coin = Coin(denom: Denom, amount: U128)

  datatype Asset = Asset(name: string, denom: Denom, decimal: U64, uri: Option<string>)

  datatype Config = Config(nftAddress: Addr, owner: Addr, acceptedAssets: seq<Asset>)

  datatype KycStatus = Unverified | InProcess | Rejected | Approved | ReVerify

  datatype ContactInfo = ContactInfo(
    name: string, companyName: string, address: string, phoneNumber: string, owner: Addr, emailId: string,
    sentRequests: seq<Addr>, receivedRequests: seq<Addr>, contacts: seq<Addr>, kycStatus: KycStatus,
    assignedInvoices: seq<U64>, generatedInvoices: seq<U64>)

  datatype ServiceType = Unspecified | Goods | Service

  datatype Status = Raised | Accepted | Paid | PartiallyPaid

  datatype Invoice = Invoice(
    id: U64, from: Addr, payeeAddress: Addr, nftId: U64, docUri: string, dueAmount: Coin, receivable: Coin,
    amountPaid: Coin, serviceType: ServiceType, status: Status)

  /** The reasons a call fails; each undoes everything the call wrote. `Panic` is a checked-arithmetic or
      out-of-range abort, `MessageFailed` the failure of a message the call emitted. */
  datatype Error =
    | Unauthorized | NotFound | FundsNotAccepted | SenderIsReceiver | DenomsDiffer | AssetNotAccepted
    | NoProfile | NoCounterpartyProfile | CreatorNotVerified | CounterpartyNotVerified | NotInContacts
    | RequestAlreadySent | NoRequestFound | ProfileExists | NotOneToken | NotYetAccepted | AlreadyPaid
    | ExceedsReceivable | AlreadyAccepted | Panic | MessageFailed

  /** The messages a successful call sends to other contracts and to the bank. */
  datatype Message =
    | Mint(collection: Addr, token: U64, owner: Addr)
    | TransferNft(collection: Addr, token: U64, recipient: Addr)
    | Send(to: Addr, coin: Coin)

  /** The value of the storage; `contract` is the address the contract itself lives at. */
  datatype Store = Store(
    contract: Addr, profiles: map<Addr, ContactInfo>, invoices: map<U64, Invoice>,
    config: Option<Config>, invoiceId: Option<U64>)

  /** A call either fails or leaves a new storage value and sends messages. */
  datatype Effect = Effect(store: Store, messages: seq<Message>)
  type Outcome = Result<Effect, Error>

  /** A handler's answer and the storage it leaves match the outcome of the call; a failed call promises
      nothing about the storage, which is discarded. */
  predicate Realises(answer: Result<seq<Message>, Error>, now: Store, outcome: Outcome) {
    match outcome
    case Err(e) => answer == Err(e)
    case Ok(effect) => answer == Ok(effect.messages) && now == effect.store
  }

  const FIRST_INVOICE_ID: U64 := 1_000_000

  function InitialStore(contract: Addr): Store {
    Store(contract, map[], map[], None, Some(FIRST_INVOICE_ID))
  }

  function NextInvoiceId(s: Store): Option<U64> {
    var id := if s.invoiceId.Some? then s.invoiceId.value else 0;
    if id < U64_MAX then Some(id + 1) else None
  }

  class Storage {
    const contract: Addr
    var profiles: map<Addr, ContactInfo>
    var invoices: map<U64, Invoice>
    var config: Option<Config>
    var invoiceId: Option<U64>

    /** `instantiate`: the counter is set, the configuration is not. */
    constructor Instantiate(contract: Addr)
      ensures View() == InitialStore(contract)
      ensures profiles == map[] && invoices == map[] && config == None && invoiceId == Some(1_000_000)
    {
      this.contract := contract;
      profiles, invoices, config, invoiceId := map[], map[], None, Some(FIRST_INVOICE_ID);
    }

    function View(): Store
      reads this
    {
      Store(contract, profiles, invoices, config, invoiceId)
    }

    /** The next id, one above the stored counter (a missing counter reads as zero); `None` when it overflows. */
    method GetInvoiceId() returns (r: Option<U64>)
      ensures r == NextInvoiceId(View())
    {
      var id := if invoiceId.Some? then invoiceId.value else 0;
      if id == U64_MAX {
        return None;
      }
      id := id + 1;
      return Some(id);
    }

    method SetConfig(nftAddress: Addr, owner: Addr, acceptedAssets: seq<Asset>)
      modifies this`config
      ensures View() == old(View()).(config := Some(Config(nftAddress, owner, acceptedAssets)))
    {
      config := Some(Config(nftAddress, owner, acceptedAssets));
    }
  }
}
