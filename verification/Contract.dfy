/** The entry point of contracts/core: dispatch, and the rollback of every failed call. */
module Contract {
  import opened Common
  import opened State
  import Profile
  import Invoicing

  datatype ExecuteMsg =
    | CreateRequest(address: Addr)
    | AcceptRequest(address: Addr)
    | CreateProfile(name: string, emailId: string, phoneNumber: string, companyName: string, street: string)
    | SetConfig(nftAddress: Addr, owner: Addr, acceptedAssets: seq<Asset>)
    | CreateInvoice(payee: Addr, receivable: Coin, amountPaid: Coin, serviceType: ServiceType, docUri: string)
    | AcceptInvoice(invoiceId: U64)
    | PayInvoice(invoiceId: U64)

  /** A transaction: who calls, and what funds come with it. */
  datatype Tx = Tx(sender: Addr, funds: seq<Coin>, msg: ExecuteMsg)

  function Dispatch(s: Store, tx: Tx): Outcome {
    match tx.msg
    case CreateRequest(address) => Profile.RequestOutcome(s, tx.sender, address)
    case AcceptRequest(address) => Profile.AcceptOutcome(s, tx.sender, tx.funds, address)
    case CreateProfile(name, email, phone, company, street) =>
      Profile.ProfileOutcome(s, tx.sender, tx.funds, Profile.NewProfile(tx.sender, name, email, phone, company, street))
    case SetConfig(nft, owner, assets) => Ok(Effect(s.(config := Some(Config(nft, owner, assets))), []))
    case CreateInvoice(payee, receivable, paid, service, uri) =>
      Invoicing.RaiseOutcome(s, tx.sender, tx.funds, payee, receivable, paid, service, uri)
    case AcceptInvoice(id) => Invoicing.AcceptInvoiceOutcome(s, tx.sender, id)
    case PayInvoice(id) => Invoicing.PayOutcome(s, tx.sender, tx.funds, id)
  }

  /** The outcome once the emitted messages have run where they were sent: if one of them is refused, the call fails
      with it. */
  function Committed(s: Store, tx: Tx, accepted: bool): Outcome {
    var outcome := Dispatch(s, tx);
    if outcome.Ok? && outcome.value.messages != [] && !accepted then Err(MessageFailed) else outcome
  }

  /** Runs one transaction: a failure, in the handler or in an emitted message, restores the storage. */
  method Execute(s: Storage, tx: Tx, accepted: bool) returns (r: Result<seq<Message>, Error>)
    modifies s
    ensures Committed(old(s.View()), tx, accepted).Ok? ==> Realises(r, s.View(), Committed(old(s.View()), tx, accepted))
    ensures Committed(old(s.View()), tx, accepted).Err? ==>
              r == Err(Committed(old(s.View()), tx, accepted).error) && s.View() == old(s.View())
  {
    hide Profile.RequestOutcome, Profile.AcceptOutcome, Profile.ProfileOutcome;
    hide Invoicing.RaiseOutcome, Invoicing.AcceptInvoiceOutcome, Invoicing.PayOutcome;
    var profiles, invoices, config, invoiceId := s.profiles, s.invoices, s.config, s.invoiceId;
    match tx.msg {
      case CreateRequest(address) =>
        r := Profile.CreateRequest(s, tx.sender, address);
      case AcceptRequest(address) =>
        r := Profile.AcceptRequest(s, tx.sender, tx.funds, address);
      case CreateProfile(name, email, phone, company, street) =>
        r := Profile.CreateProfile(s, tx.sender, tx.funds, name, email, phone, company, street);
      case SetConfig(nft, owner, assets) =>
        s.SetConfig(nft, owner, assets);
        r := Ok([]);
      case CreateInvoice(payee, receivable, paid, service, uri) =>
        r := Invoicing.CreateInvoice(s, tx.sender, tx.funds, payee, receivable, paid, service, uri);
      case AcceptInvoice(id) =>
        r := Invoicing.AcceptInvoice(s, tx.sender, id);
      case PayInvoice(id) =>
        r := Invoicing.PayInvoice(s, tx.sender, tx.funds, id);
    }
    if r.Ok? && r.value != [] && !accepted {
      r := Err(MessageFailed);
    }
    if r.Err? {
      s.profiles, s.invoices, s.config, s.invoiceId := profiles, invoices, config, invoiceId;
    }
  }
}
