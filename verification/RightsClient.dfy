/** The sending-side client pallet: escrowed requests and their settlement. */
module RightsClient {
  import opened Numbers
  import opened Bank
  import opened Wire

  /** Query identifiers and chain locations. */
  type QueryId = nat
  type Location = nat

  datatype Config = Config(
    escrowAccount: Account, operator: Account, rightsChain: Location, rightsPalletIndex: Byte, existentialDeposit: nat)

  datatype PendingRequest = PendingRequest(who: Account, escrow: nat, request: RightsRequest)

  /** What the rights chain can answer to a query, as far as settlement distinguishes it. */
  datatype Response = DispatchSuccess | DispatchFailure | OtherResponse

  datatype Origin = Signed(who: Account) | ResponseFrom(responder: Location)

  datatype Client = Client(bank: Balances, pending: map<QueryId, PendingRequest>, nextQuery: QueryId)

  datatype Sent = Sent(client: Client, query: QueryId, message: seq<Byte>)

  /** A transfer that may empty the source: what is left below the existential deposit is lost. */
  function Release(bank: Balances, src: Account, dst: Account, amount: nat, ed: nat, allow: Policy): Result<Balances> {
    if BalanceOf(bank, src) < amount || !allow(bank, src, dst, amount) then Err(TransferFailed)
    else if src == dst then Ok(bank)
    else
      var left := BalanceOf(bank, src) - amount;
      Ok(bank[src := if left < ed then 0 else left][dst := BalanceOf(bank, dst) + amount])
  }

  function Request(c: Client, cfg: Config, who: Account, request: RightsRequest, escrow: nat, allow: Policy, delivered: bool): Result<Sent> {
    if |who.raw| != ACCOUNT_BYTES then Err(BadBeneficiary)
    else
      var bank :- TransferAmount(c.bank, who, cfg.escrowAccount, escrow, allow);
      if !delivered then Err(SendFailed)
      else
        var query := c.nextQuery;
        Ok(Sent(Client(bank, c.pending[query := PendingRequest(who, escrow, request)], query + 1),
                query, RemoteCall(cfg.rightsPalletIndex, request, who.raw)))
  }

  /** Who receives the escrow of a settled request. */
  function Payee(cfg: Config, p: PendingRequest, response: Response): Account {
    if response == DispatchSuccess then cfg.operator else p.who
  }

  function OnOutcome(c: Client, cfg: Config, origin: Origin, query: QueryId, response: Response, allow: Policy): Result<Client> {
    if !origin.ResponseFrom? then Err(BadOrigin)
    else if origin.responder != cfg.rightsChain then Err(WrongResponder)
    else if query !in c.pending then Err(UnknownQuery)
    else
      var p := c.pending[query];
      var bank :- Release(c.bank, cfg.escrowAccount, Payee(cfg, p, response), p.escrow, cfg.existentialDeposit, allow);
      Ok(Client(bank, c.pending - {query}, c.nextQuery))
  }

  class Pallet {
    const cfg: Config
    var bank: Balances
    var pending: map<QueryId, PendingRequest>
    var nextQuery: QueryId

    function State(): Client
      reads this
    {
      Client(bank, pending, nextQuery)
    }

    constructor (cfg: Config, bank: Balances)
      ensures State() == Client(bank, map[], 0) && this.cfg == cfg
    {
      this.cfg := cfg;
      this.bank := bank;
      pending := map[];
      nextQuery := 0;
    }

    method Restore(saved: Client)
      modifies this
      ensures State() == saved
    {
      bank, pending, nextQuery := saved.bank, saved.pending, saved.nextQuery;
    }

    /** Take the escrow, register a query and send the encoded call; a failure undoes all of it. */
    method SubmitRequest(who: Account, request: RightsRequest, escrow: nat, allow: Policy, delivered: bool)
      returns (r: Result<(QueryId, seq<Byte>)>)
      modifies this
      ensures match Request(old(State()), cfg, who, request, escrow, allow, delivered)
              case Ok(sent) => r == Ok((sent.query, sent.message)) && State() == sent.client
              case Err(e) => r == Err(e) && State() == old(State())
    {
      var saved := State();
      if |who.raw| != ACCOUNT_BYTES {
        return Err(BadBeneficiary);
      }
      if BalanceOf(bank, who) < escrow || !allow(bank, who, cfg.escrowAccount, escrow) {
        return Err(TransferFailed);
      }
      bank := Move(bank, who, cfg.escrowAccount, escrow);
      var query := nextQuery;
      nextQuery := nextQuery + 1;
      var message := RemoteCall(cfg.rightsPalletIndex, request, who.raw);
      if !delivered {
        Restore(saved);
        return Err(SendFailed);
      }
      pending := pending[query := PendingRequest(who, escrow, request)];
      return Ok((query, message));
    }

    /** Settle a reported request: the escrow goes to the operator on success and back to the user otherwise. */
    method Settle(origin: Origin, query: QueryId, response: Response, allow: Policy) returns (r: Result<()>)
      modifies this
      ensures match OnOutcome(old(State()), cfg, origin, query, response, allow)
              case Ok(c) => r.Ok? && State() == c
              case Err(e) => r == Err(e) && State() == old(State())
    {
      var saved := State();
      if !origin.ResponseFrom? {
        return Err(BadOrigin);
      }
      if origin.responder != cfg.rightsChain {
        return Err(WrongResponder);
      }
      if query !in pending {
        return Err(UnknownQuery);
      }
      var taken := pending[query];
      pending := pending - {query};
      var success := response == DispatchSuccess;
      var dst := if success then cfg.operator else taken.who;
      var released := Release(bank, cfg.escrowAccount, dst, taken.escrow, cfg.existentialDeposit, allow);
      if released.Err? {
        Restore(saved);
        return Err(released.error);
      }
      bank := released.value;
      return Ok(());
    }
  }
}
