/** The escrow account covers all pending escrows; and exactly when a settlement would break that. */
module Escrow {
  import opened Numbers
  import opened Checking
  import opened Sums
  import opened Bank
  import opened Wire
  import opened RightsClient

  ghost function Escrows(pending: map<QueryId, PendingRequest>): map<QueryId, nat> {
    map q | q in pending :: pending[q].escrow
  }

  /** The sum of all pending escrows. */
  ghost function Owing(pending: map<QueryId, PendingRequest>): nat { Total(Escrows(pending)) }

  ghost predicate Covered(c: Client, cfg: Config) {
    Owing(c.pending) <= BalanceOf(c.bank, cfg.escrowAccount)
  }

  lemma {:induction false} OwingAdd(pending: map<QueryId, PendingRequest>, q: QueryId, p: PendingRequest)
    requires q !in pending
    ensures Owing(pending[q := p]) == Owing(pending) + p.escrow
  {
    assert Escrows(pending[q := p]) == Escrows(pending)[q := p.escrow];
    TotalUpdate(Escrows(pending), q, p.escrow);
  }

  lemma {:induction false} OwingRemove(pending: map<QueryId, PendingRequest>, q: QueryId)
    requires q in pending
    ensures Owing(pending - {q}) == Owing(pending) - pending[q].escrow
  {
    assert Escrows(pending - {q}) == Escrows(pending) - {q};
    TotalPeel(Escrows(pending), q);
  }

  // ---------- What is accepted ----------

  function Requesting(c: Client, cfg: Config, who: Account, escrow: nat, allow: Policy, delivered: bool): Checks {
    Require(|who.raw| == ACCOUNT_BYTES, BadBeneficiary,
    Require(escrow <= BalanceOf(c.bank, who) && allow(c.bank, who, cfg.escrowAccount, escrow), TransferFailed,
    Require(delivered, SendFailed,
    Accept)))
  }

  /**
    A request is accepted exactly if its sender can be named on the wire and can pay the escrow, and
    the message is sent; it is then pending under the next query id, and the others are as they were.
  */
  lemma {:induction false} RequestDecided(
      c: Client, cfg: Config, who: Account, request: RightsRequest, escrow: nat, allow: Policy, delivered: bool)
    ensures var r := Request(c, cfg, who, request, escrow, allow, delivered);
            && Decides(Requesting(c, cfg, who, escrow, allow, delivered), r)
            && (r.Ok? ==>
                  && r.value.query == c.nextQuery < r.value.client.nextQuery
                  && r.value.client.pending == c.pending[c.nextQuery := PendingRequest(who, escrow, request)])
  {
    var checks := Requesting(c, cfg, who, escrow, allow, delivered);
    RefusalOf(checks.next);
    RefusalOf(checks.next.next);
  }

  function Settling(c: Client, cfg: Config, origin: Origin, q: QueryId, response: Response, allow: Policy): Checks {
    Require(origin.ResponseFrom?, BadOrigin,
    Require(origin == ResponseFrom(cfg.rightsChain), WrongResponder,
    Require(q in c.pending, UnknownQuery,
    Require(q in c.pending && CanPayOut(c, cfg, c.pending[q], response, allow), TransferFailed,
    Accept))))
  }

  /** The escrow account holds the escrow, and the currency accepts paying it to the operator or back. */
  predicate CanPayOut(c: Client, cfg: Config, p: PendingRequest, response: Response, allow: Policy) {
    && p.escrow <= BalanceOf(c.bank, cfg.escrowAccount)
    && allow(c.bank, cfg.escrowAccount, if response == DispatchSuccess then cfg.operator else p.who, p.escrow)
  }

  /**
    A report settles its request exactly if it comes from the rights chain, the request is pending and
    the currency pays the escrow out, whatever the response is.
  */
  lemma {:induction false} SettlementDecided(c: Client, cfg: Config, origin: Origin, q: QueryId, response: Response, allow: Policy)
    ensures var r := OnOutcome(c, cfg, origin, q, response, allow);
            && Decides(Settling(c, cfg, origin, q, response, allow), r)
            && (r.Ok? <==>
                  origin == ResponseFrom(cfg.rightsChain) && q in c.pending && CanPayOut(c, cfg, c.pending[q], response, allow))
  {
    var checks := Settling(c, cfg, origin, q, response, allow);
    RefusalOf(checks.next);
    RefusalOf(checks.next.next);
    RefusalOf(checks.next.next.next);
  }

  // ---------- Where the money goes ----------

  /** An accepted request moves exactly the escrow from its sender to the escrow account. */
  lemma {:induction false} RequestTakesEscrow(
      c: Client, cfg: Config, who: Account, request: RightsRequest, escrow: nat, allow: Policy, delivered: bool, a: Account)
    requires Request(c, cfg, who, request, escrow, allow, delivered).Ok?
    ensures var c' := Request(c, cfg, who, request, escrow, allow, delivered).value.client;
            && BalanceOf(c'.bank, a) == BalanceOf(c.bank, a) - (if a == who then escrow else 0)
                                        + (if a == cfg.escrowAccount then escrow else 0)
            && Issuance(c'.bank) == Issuance(c.bank)
  {
    MoveKeepsIssuance(c.bank, who, cfg.escrowAccount, escrow);
  }

  /** What a settlement leaves on the escrow account below the existential deposit, and is lost. */
  function Dust(c: Client, cfg: Config, p: PendingRequest, response: Response): nat
    requires p.escrow <= BalanceOf(c.bank, cfg.escrowAccount)
  {
    var left := BalanceOf(c.bank, cfg.escrowAccount) - p.escrow;
    if Payee(cfg, p, response) != cfg.escrowAccount && left < cfg.existentialDeposit then left else 0
  }

  /**
    A settlement moves exactly the escrow from the escrow account to the operator or to the user,
    whatever accounts coincide; only dust left on the escrow account is lost, and nobody else is touched.
  */
  lemma {:induction false} SettlementPaysEscrow(
      c: Client, cfg: Config, origin: Origin, q: QueryId, response: Response, allow: Policy, a: Account)
    requires OnOutcome(c, cfg, origin, q, response, allow).Ok?
    ensures q in c.pending && c.pending[q].escrow <= BalanceOf(c.bank, cfg.escrowAccount)
    ensures var c' := OnOutcome(c, cfg, origin, q, response, allow).value;
            var p := c.pending[q];
            var dust := Dust(c, cfg, p, response);
            && c'.pending == c.pending - {q}
            && BalanceOf(c'.bank, a) == BalanceOf(c.bank, a) + (if a == Payee(cfg, p, response) then p.escrow else 0)
                                        - (if a == cfg.escrowAccount then p.escrow + dust else 0)
            && Issuance(c'.bank) == Issuance(c.bank) - dust
  {
    hide Total;
    var p := c.pending[q];
    var payee, left := Payee(cfg, p, response), BalanceOf(c.bank, cfg.escrowAccount) - p.escrow;
    if payee != cfg.escrowAccount {
      var rest := if left < cfg.existentialDeposit then 0 else left;
      TotalUpdate(c.bank, cfg.escrowAccount, rest);
      TotalUpdate(c.bank[cfg.escrowAccount := rest], payee, BalanceOf(c.bank, payee) + p.escrow);
    }
  }

  /** Every pending escrow is zero or at least the existential deposit. */
  ghost predicate NoDust(pending: map<QueryId, PendingRequest>, ed: nat) {
    forall q :: q in pending ==> pending[q].escrow == 0 || ed <= pending[q].escrow
  }

  /** Without dust escrows the sum owed is zero or at least the existential deposit. */
  lemma {:induction false} OwingIsNotDust(pending: map<QueryId, PendingRequest>, ed: nat)
    requires NoDust(pending, ed)
    ensures Owing(pending) == 0 || ed <= Owing(pending)
    decreases pending.Keys
  {
    if pending.Keys == {} {
      assert Escrows(pending).Keys == {};
    } else {
      var q :| q in pending.Keys;
      OwingRemove(pending, q);
      OwingIsNotDust(pending - {q}, ed);
    }
  }

  /**
    A settlement keeps the escrows covered if and only if nothing leaves the escrow account, what is
    left on it is not reaped as dust, or nothing remains to be covered.
  */
  lemma {:induction false} SettlementCoversIff(c: Client, cfg: Config, origin: Origin, q: QueryId, response: Response, allow: Policy)
    requires Covered(c, cfg) && OnOutcome(c, cfg, origin, q, response, allow).Ok?
    ensures Covered(OnOutcome(c, cfg, origin, q, response, allow).value, cfg) <==>
            || Payee(cfg, c.pending[q], response) == cfg.escrowAccount
            || cfg.existentialDeposit <= BalanceOf(c.bank, cfg.escrowAccount) - c.pending[q].escrow
            || Owing(c.pending - {q}) == 0
  {
    OwingRemove(c.pending, q);
  }

  lemma {:induction false} SettlementKeepsCovered(c: Client, cfg: Config, origin: Origin, q: QueryId, response: Response, allow: Policy)
    requires Covered(c, cfg) && NoDust(c.pending, cfg.existentialDeposit)
    requires OnOutcome(c, cfg, origin, q, response, allow).Ok?
    ensures var c' := OnOutcome(c, cfg, origin, q, response, allow).value;
            Covered(c', cfg) && NoDust(c'.pending, cfg.existentialDeposit)
  {
    OwingRemove(c.pending, q);
    OwingIsNotDust(c.pending - {q}, cfg.existentialDeposit);
  }

  lemma {:induction false} RequestKeepsCovered(
      c: Client, cfg: Config, who: Account, request: RightsRequest, escrow: nat, allow: Policy, delivered: bool)
    requires Covered(c, cfg) && NoDust(c.pending, cfg.existentialDeposit) && c.nextQuery !in c.pending
    requires who != cfg.escrowAccount && (escrow == 0 || cfg.existentialDeposit <= escrow)
    requires Request(c, cfg, who, request, escrow, allow, delivered).Ok?
    ensures var c' := Request(c, cfg, who, request, escrow, allow, delivered).value.client;
            Covered(c', cfg) && NoDust(c'.pending, cfg.existentialDeposit)
  {
    OwingAdd(c.pending, c.nextQuery, PendingRequest(who, escrow, request));
  }
}
