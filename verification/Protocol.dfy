/**
  The two-chain escrow protocol: a client chain and the rights chain joined by messages and reports
  that can be delayed, reordered or lost but not forged, altered or duplicated.
*/
module Protocol {
  import opened Numbers
  import opened Bank
  import opened RenewalQueue
  import opened Ledger
  import opened Effects
  import opened Wire
  import opened RightsClient
  import opened Escrow

  /** A call that the rights chain dispatched for a query: its storage before and after, and the result. */
  datatype Dispatched = Dispatched(before: Chain, after: Chain, ok: bool)

  datatype Payout = Payout(query: QueryId, dst: Account, amount: nat)

  /**
    Both chains, what is in flight between them, and a record of what has happened: the requests
    accepted, the calls dispatched for them and the escrows paid out.
  */
  datatype World = World(
    client: Client, remote: Chain,
    messages: map<QueryId, seq<Byte>>, reports: map<QueryId, bool>,
    issued: map<QueryId, PendingRequest>, dispatched: map<QueryId, Dispatched>, payouts: seq<Payout>)

  datatype Step =
    | Ask(who: Account, request: RightsRequest, escrow: nat, allow: Policy, delivered: bool)
    | Execute(query: QueryId, env: Env)
    | LoseMessage(query: QueryId)
    | Deliver(query: QueryId, allow: Policy)
    | LoseReport(query: QueryId)
    | Forge(origin: Origin, query: QueryId, response: Response, allow: Policy)
    | RemoteActivity(step: Ledger.Step)
    | ClientActivity(bank: Balances, nextQuery: QueryId)

  /** The call in a message, run from the client chain's sovereign account; a failure leaves the chain unchanged. */
  function ExecuteCall(cfg: Config, sovereign: Account, remote: Chain, message: seq<Byte>, env: Env): Dispatched {
    match DecodeCall(cfg.rightsPalletIndex, message)
    case None => Dispatched(remote, remote, false)
    case Some(call) =>
      match Apply(remote, sovereign, call, env)
      case Ok(after) => Dispatched(remote, after, true)
      case Err(_) => Dispatched(remote, remote, false)
  }

  function ReportOf(ok: bool): Response { if ok then DispatchSuccess else DispatchFailure }

  function Asked(cfg: Config, w: World, who: Account, request: RightsRequest, escrow: nat, allow: Policy, delivered: bool): World {
    match Request(w.client, cfg, who, request, escrow, allow, delivered)
    case Err(_) => w
    case Ok(sent) =>
      w.(client := sent.client,
         messages := w.messages[sent.query := sent.message],
         issued := w.issued[sent.query := PendingRequest(who, escrow, request)])
  }

  function Executed(cfg: Config, sovereign: Account, w: World, q: QueryId, env: Env): World {
    if q !in w.messages then w
    else
      var d := ExecuteCall(cfg, sovereign, w.remote, w.messages[q], env);
      w.(remote := d.after, messages := w.messages - {q}, reports := w.reports[q := d.ok], dispatched := w.dispatched[q := d])
  }

  function Delivered(cfg: Config, w: World, q: QueryId, allow: Policy): World {
    if q !in w.reports then w
    else
      var response := ReportOf(w.reports[q]);
      var w1 := w.(reports := w.reports - {q});
      match OnOutcome(w.client, cfg, ResponseFrom(cfg.rightsChain), q, response, allow)
      case Err(_) => w1
      case Ok(client) =>
        var p := w.client.pending[q];
        w1.(client := client, payouts := w.payouts + [Payout(q, Payee(cfg, p, response), p.escrow)])
  }

  /** `on_outcome` from any origin but a response of the rights chain. */
  function Forged(cfg: Config, w: World, origin: Origin, q: QueryId, response: Response, allow: Policy): World {
    if origin == ResponseFrom(cfg.rightsChain) then w
    else
      match OnOutcome(w.client, cfg, origin, q, response, allow)
      case Err(_) => w
      case Ok(client) => w.(client := client)
  }

  /** Other activity on the client chain cannot spend from the escrow account; query ids only grow. */
  function Elsewhere(cfg: Config, w: World, bank: Balances, nextQuery: QueryId): World {
    if BalanceOf(bank, cfg.escrowAccount) < BalanceOf(w.client.bank, cfg.escrowAccount) || nextQuery < w.client.nextQuery then w
    else w.(client := Client(bank, w.client.pending, nextQuery))
  }

  function NextWorld(cfg: Config, sovereign: Account, w: World, step: Step): World {
    match step
    case Ask(who, request, escrow, allow, delivered) => Asked(cfg, w, who, request, escrow, allow, delivered)
    case Execute(q, env) => Executed(cfg, sovereign, w, q, env)
    case LoseMessage(q) => w.(messages := w.messages - {q})
    case Deliver(q, allow) => Delivered(cfg, w, q, allow)
    case LoseReport(q) => w.(reports := w.reports - {q})
    case Forge(origin, q, response, allow) => Forged(cfg, w, origin, q, response, allow)
    case RemoteActivity(s) => w.(remote := Ledger.Next(w.remote, s))
    case ClientActivity(bank, nextQuery) => Elsewhere(cfg, w, bank, nextQuery)
  }

  function RunWorld(cfg: Config, sovereign: Account, w: World, steps: seq<Step>): World
    decreases |steps|
  {
    if steps == [] then w
    else NextWorld(cfg, sovereign, RunWorld(cfg, sovereign, w, steps[..|steps| - 1]), steps[|steps| - 1])
  }

  /** No request has been made yet; the rights chain may be in any state. */
  predicate IsStart(w: World) {
    && w.client.pending == map[] && w.messages == map[] && w.reports == map[]
    && w.issued == map[] && w.dispatched == map[] && w.payouts == []
  }

  // ---------- What a successful call grants ----------

  /** Going from `before` to `after` gave the beneficiary exactly the requested right, and nobody any other. */
  ghost predicate Granted(request: RightsRequest, who: Account, before: Chain, after: Chain) {
    var k := Key(request.content, who);
    && k.content in before.contents && after.contents == before.contents
    && match request
       case SubscribeTo(c) =>
         && k !in before.subscriptions && k in after.subscriptions
         && after.subscriptions[k].expiry == SatAdd32(before.now, before.contents[c].period)
         && after.subscriptions == before.subscriptions[k := after.subscriptions[k]]
         && after.viewPacks == before.viewPacks && after.ownership == before.ownership
       case Renew(c) =>
         && k in before.subscriptions && before.subscriptions[k].expiry <= before.now
         && after.subscriptions == before.subscriptions[k :=
              before.subscriptions[k].(expiry := SatAdd32(before.now, before.contents[c].period))]
         && after.viewPacks == before.viewPacks && after.ownership == before.ownership
       case BuyViews(_, n) =>
         && k in after.viewPacks
         && after.viewPacks[k].views == SatAdd32(if k in before.viewPacks then before.viewPacks[k].views else 0, n)
         && after.viewPacks == before.viewPacks[k := after.viewPacks[k]]
         && after.subscriptions == before.subscriptions && after.ownership == before.ownership
       case BuyOwnership(_) =>
         && k !in before.ownership && k in after.ownership
         && after.ownership == before.ownership[k := after.ownership[k]]
         && after.subscriptions == before.subscriptions && after.viewPacks == before.viewPacks
  }

  lemma {:induction false} ViewsGranted(s: Chain, payer: Account, request: RightsRequest, who: Account, env: Env, s': Chain)
    requires request.BuyViews? && GrantViews(s, payer, Key(request.content, who), request.views, env) == Ok(s')
    ensures Granted(request, who, s, s')
  {
    hide GrantViews;
    var k := Key(request.content, who);
    GrantViewsEffect(s, payer, k, request.views, env, s');
    GrantViewsNeedsContent(s, payer, k, request.views, env);
    if k in s.viewPacks {
      assert PackGrown(s, s', k, request.views);
    } else {
      assert PackStarted(s, s', k, request.views);
    }
  }

  lemma {:induction false} GrantViewsNeedsContent(s: Chain, payer: Account, k: Key, views: u32, env: Env)
    requires GrantViews(s, payer, k, views, env).Ok?
    ensures k.content in s.contents
  {
  }

  lemma {:induction false} SubscriptionGranted(s: Chain, payer: Account, request: RightsRequest, who: Account, env: Env, s': Chain)
    requires request.SubscribeTo? && GrantSubscription(s, payer, Key(request.content, who), env) == Ok(s')
    ensures Granted(request, who, s, s')
  {
    hide GrantSubscription;
    GrantSubscriptionEffect(s, payer, Key(request.content, who), env, s');
  }

  lemma {:induction false} RenewalGranted(s: Chain, payer: Account, request: RightsRequest, who: Account, env: Env, s': Chain)
    requires request.Renew? && ExtendSubscription(s, payer, Key(request.content, who), env) == Ok(s')
    ensures Granted(request, who, s, s')
  {
    hide ExtendSubscription;
    ExtendEffect(s, payer, Key(request.content, who), env, s');
  }

  lemma {:induction false} OwnershipGranted(s: Chain, payer: Account, request: RightsRequest, who: Account, env: Env, s': Chain)
    requires request.BuyOwnership? && GrantOwnership(s, payer, Key(request.content, who), env) == Ok(s')
    ensures Granted(request, who, s, s')
  {
    hide GrantOwnership;
    GrantOwnershipEffect(s, payer, Key(request.content, who), env, s');
  }

  /** A dispatch of what the client sent either grants the request to its sender or changes nothing. */
  ghost predicate Truthful(p: PendingRequest, d: Dispatched) {
    if d.ok then Granted(p.request, p.who, d.before, d.after) else d.after == d.before
  }

  lemma {:induction false} CallGrants(s: Chain, payer: Account, request: RightsRequest, who: Account, env: Env, s': Chain)
    requires Apply(s, payer, CallFor(request, who), env) == Ok(s')
    ensures Granted(request, who, s, s')
  {
    hide Granted;
    hide GrantSubscription;
    hide ExtendSubscription;
    hide GrantViews;
    hide GrantOwnership;
    match request
    case SubscribeTo(_) => SubscriptionGranted(s, payer, request, who, env, s');
    case Renew(_) => RenewalGranted(s, payer, request, who, env, s');
    case BuyViews(_, _) => ViewsGranted(s, payer, request, who, env, s');
    case BuyOwnership(_) => OwnershipGranted(s, payer, request, who, env, s');
  }

  lemma {:induction false} ExecutionIsTruthful(cfg: Config, sovereign: Account, remote: Chain, p: PendingRequest, env: Env)
    requires |p.who.raw| == ACCOUNT_BYTES
    ensures var d := ExecuteCall(cfg, sovereign, remote, RemoteCall(cfg.rightsPalletIndex, p.request, p.who.raw), env);
            Truthful(p, d) && d.before == remote
  {
    hide Granted;
    hide Apply;
    hide DecodeCall;
    hide RemoteCall;
    WireRoundTrip(cfg.rightsPalletIndex, p.request, p.who.raw);
    var r := Apply(remote, sovereign, CallFor(p.request, p.who), env);
    if r.Ok? {
      CallGrants(remote, sovereign, p.request, p.who, env, r.value);
    }
  }

  // ---------- Agreement ----------

  function PayoutsOf(payouts: seq<Payout>, q: QueryId): seq<Payout> {
    if payouts == [] then []
    else
      var rest := PayoutsOf(payouts[..|payouts| - 1], q);
      var last := payouts[|payouts| - 1];
      if last.query == q then rest + [last] else rest
  }

  /** Still pending: the request is recorded as made and nothing was paid out for it. */
  ghost predicate StillPending(w: World, q: QueryId)
    requires q in w.issued
  {
    q in w.client.pending && w.client.pending[q] == w.issued[q] && PayoutsOf(w.payouts, q) == []
  }

  /** Paid: the operator got the escrow once, and the call granted exactly the requested right. */
  ghost predicate Paid(cfg: Config, w: World, q: QueryId)
    requires q in w.issued
  {
    var p := w.issued[q];
    && q !in w.client.pending
    && PayoutsOf(w.payouts, q) == [Payout(q, cfg.operator, p.escrow)]
    && q in w.dispatched && w.dispatched[q].ok
    && Granted(p.request, p.who, w.dispatched[q].before, w.dispatched[q].after)
  }

  /** Refunded: the user got the escrow back once, and the call left the rights chain unchanged. */
  ghost predicate Refunded(w: World, q: QueryId)
    requires q in w.issued
  {
    var p := w.issued[q];
    && q !in w.client.pending
    && PayoutsOf(w.payouts, q) == [Payout(q, p.who, p.escrow)]
    && q in w.dispatched && !w.dispatched[q].ok
    && w.dispatched[q].after == w.dispatched[q].before
  }

  ghost predicate Resolved(cfg: Config, w: World, q: QueryId)
    requires q in w.issued
  {
    StillPending(w, q) || Paid(cfg, w, q) || Refunded(w, q)
  }

  /** What is in flight belongs to a pending request: its encoded call, or a truthful report of it. */
  ghost predicate InFlight(cfg: Config, w: World, q: QueryId) {
    && (q in w.messages ==>
          && q in w.client.pending && q in w.issued && q !in w.dispatched && q !in w.reports
          && w.messages[q] == RemoteCall(cfg.rightsPalletIndex, w.issued[q].request, w.issued[q].who.raw))
    && (q in w.reports ==>
          q in w.client.pending && q in w.issued && q in w.dispatched && w.reports[q] == w.dispatched[q].ok)
    && (q in w.dispatched ==> q in w.issued && Truthful(w.issued[q], w.dispatched[q]))
    && (q in w.client.pending ==> q in w.issued)
    && (q in w.issued ==> q < w.client.nextQuery && |w.issued[q].who.raw| == ACCOUNT_BYTES)
    && (q !in w.issued ==> PayoutsOf(w.payouts, q) == [])
  }

  ghost predicate Agreement(cfg: Config, w: World) {
    forall q: QueryId :: InFlight(cfg, w, q) && (q in w.issued ==> Resolved(cfg, w, q))
  }

  lemma {:induction false} PayoutAppended(payouts: seq<Payout>, p: Payout, q: QueryId)
    ensures PayoutsOf(payouts + [p], q) == PayoutsOf(payouts, q) + (if p.query == q then [p] else [])
  {
    assert (payouts + [p])[..|payouts|] == payouts;
  }

  lemma {:induction false} AskKeeps(cfg: Config, w: World, who: Account, request: RightsRequest, escrow: nat, allow: Policy, delivered: bool)
    requires Agreement(cfg, w)
    ensures Agreement(cfg, Asked(cfg, w, who, request, escrow, allow, delivered))
  {
    hide Granted;
    hide RemoteCall;
    var w' := Asked(cfg, w, who, request, escrow, allow, delivered);
    forall q: QueryId
      ensures InFlight(cfg, w', q) && (q in w'.issued ==> Resolved(cfg, w', q))
    {
      assert InFlight(cfg, w, q);
    }
  }

  lemma {:induction false} ExecuteKeeps(cfg: Config, sovereign: Account, w: World, q0: QueryId, env: Env)
    requires Agreement(cfg, w) && q0 in w.messages
    ensures Agreement(cfg, Executed(cfg, sovereign, w, q0, env))
  {
    hide Granted;
    hide Apply;
    hide RemoteCall;
    hide ExecuteCall;
    hide Truthful;
    var w' := Executed(cfg, sovereign, w, q0, env);
    assert InFlight(cfg, w, q0);
    ExecutionIsTruthful(cfg, sovereign, w.remote, w.issued[q0], env);
    forall q: QueryId
      ensures InFlight(cfg, w', q) && (q in w'.issued ==> Resolved(cfg, w', q))
    {
      assert InFlight(cfg, w, q);
    }
  }

  /** The world after a report for `q0` has settled its request. */
  ghost predicate Settles(cfg: Config, w: World, q0: QueryId, w': World)
    requires q0 in w.reports && q0 in w.client.pending
  {
    var p := w.client.pending[q0];
    && w'.client.pending == w.client.pending - {q0} && w'.client.nextQuery == w.client.nextQuery
    && w'.issued == w.issued && w'.dispatched == w.dispatched && w'.messages == w.messages && w'.reports == w.reports - {q0}
    && w'.payouts == w.payouts + [Payout(q0, Payee(cfg, p, ReportOf(w.reports[q0])), p.escrow)]
  }

  lemma {:induction false} SettledKeepsOthers(cfg: Config, w: World, q0: QueryId, w': World, q: QueryId)
    requires q0 in w.reports && q0 in w.client.pending && Settles(cfg, w, q0, w')
    requires q != q0 && InFlight(cfg, w, q) && (q in w.issued ==> Resolved(cfg, w, q))
    ensures InFlight(cfg, w', q) && (q in w'.issued ==> Resolved(cfg, w', q))
  {
    hide Granted;
    hide Truthful;
    hide RemoteCall;
    hide PayoutsOf;
    var p := w.client.pending[q0];
    PayoutAppended(w.payouts, Payout(q0, Payee(cfg, p, ReportOf(w.reports[q0])), p.escrow), q);
  }

  lemma {:induction false} SettledIsResolved(cfg: Config, w: World, q0: QueryId, w': World)
    requires q0 in w.reports && q0 in w.client.pending && Settles(cfg, w, q0, w')
    requires InFlight(cfg, w, q0) && StillPending(w, q0)
    ensures InFlight(cfg, w', q0) && Resolved(cfg, w', q0)
  {
    hide Granted;
    hide RemoteCall;
    hide PayoutsOf;
    var p := w.client.pending[q0];
    PayoutAppended(w.payouts, Payout(q0, Payee(cfg, p, ReportOf(w.reports[q0])), p.escrow), q0);
  }

  lemma {:induction false} DeliverKeeps(cfg: Config, w: World, q0: QueryId, allow: Policy)
    requires Agreement(cfg, w) && q0 in w.reports
    ensures Agreement(cfg, Delivered(cfg, w, q0, allow))
  {
    hide Granted;
    hide Truthful;
    hide RemoteCall;
    hide PayoutsOf;
    hide Release;
    var w' := Delivered(cfg, w, q0, allow);
    assert InFlight(cfg, w, q0);
    if OnOutcome(w.client, cfg, ResponseFrom(cfg.rightsChain), q0, ReportOf(w.reports[q0]), allow).Ok? {
      assert StillPending(w, q0);
      assert Settles(cfg, w, q0, w');
      SettledIsResolved(cfg, w, q0, w');
      forall q: QueryId
        ensures InFlight(cfg, w', q) && (q in w'.issued ==> Resolved(cfg, w', q))
      {
        assert InFlight(cfg, w, q);
        if q != q0 {
          SettledKeepsOthers(cfg, w, q0, w', q);
        }
      }
    } else {
      NothingSettled(cfg, w, w');
    }
  }

  lemma {:induction false} NothingSettled(cfg: Config, w: World, w': World)
    requires Agreement(cfg, w)
    requires w'.client.pending == w.client.pending && w.client.nextQuery <= w'.client.nextQuery
    requires w'.issued == w.issued && w'.dispatched == w.dispatched && w'.payouts == w.payouts
    requires forall q :: q in w'.messages ==> q in w.messages && w'.messages[q] == w.messages[q]
    requires forall q :: q in w'.reports ==> q in w.reports && w'.reports[q] == w.reports[q]
    ensures Agreement(cfg, w')
  {
    hide Granted;
    hide Truthful;
    hide RemoteCall;
    forall q: QueryId
      ensures InFlight(cfg, w', q) && (q in w'.issued ==> Resolved(cfg, w', q))
    {
      assert InFlight(cfg, w, q);
    }
  }

  lemma {:induction false} NextKeepsAgreement(cfg: Config, sovereign: Account, w: World, step: Step)
    requires Agreement(cfg, w)
    ensures Agreement(cfg, NextWorld(cfg, sovereign, w, step))
  {
    hide Agreement;
    hide Ledger.Next;
    match step
    case Ask(who, request, escrow, allow, delivered) => AskKeeps(cfg, w, who, request, escrow, allow, delivered);
    case Execute(q, env) =>
      if q in w.messages {
        ExecuteKeeps(cfg, sovereign, w, q, env);
      }
    case Deliver(q, allow) =>
      if q in w.reports {
        DeliverKeeps(cfg, w, q, allow);
      }
    case _ => NothingSettled(cfg, w, NextWorld(cfg, sovereign, w, step));
  }

  lemma {:induction false} StartAgrees(cfg: Config, w: World)
    requires IsStart(w)
    ensures Agreement(cfg, w)
  {
    forall q: QueryId
      ensures InFlight(cfg, w, q) && (q in w.issued ==> Resolved(cfg, w, q))
    {
      assert PayoutsOf(w.payouts, q) == [];
    }
  }

  lemma {:induction false} AlwaysAgreement(cfg: Config, sovereign: Account, w: World, steps: seq<Step>)
    requires IsStart(w)
    ensures Agreement(cfg, RunWorld(cfg, sovereign, w, steps))
    decreases |steps|
  {
    if steps == [] {
      StartAgrees(cfg, w);
    } else {
      hide Agreement;
      hide NextWorld;
      AlwaysAgreement(cfg, sovereign, w, steps[..|steps| - 1]);
      NextKeepsAgreement(cfg, sovereign, RunWorld(cfg, sovereign, w, steps[..|steps| - 1]), steps[|steps| - 1]);
    }
  }

  /**
    Outcome agreement. In every interleaving, for every query ever issued exactly one holds: it is
    still pending; the operator was paid once and the call granted exactly the requested right to the
    requesting account; or the user was refunded once and the call left the rights chain unchanged.
  */
  lemma {:induction false} OutcomeAgreement(cfg: Config, sovereign: Account, w: World, steps: seq<Step>, q: QueryId)
    requires IsStart(w) && q in RunWorld(cfg, sovereign, w, steps).issued
    ensures var r := RunWorld(cfg, sovereign, w, steps);
            && (StillPending(r, q) || Paid(cfg, r, q) || Refunded(r, q))
            && !(StillPending(r, q) && Paid(cfg, r, q))
            && !(StillPending(r, q) && Refunded(r, q))
            && !(Paid(cfg, r, q) && Refunded(r, q))
  {
    AlwaysAgreement(cfg, sovereign, w, steps);
    assert InFlight(cfg, RunWorld(cfg, sovereign, w, steps), q);
  }

  // ---------- Coverage ----------

  /** No dust escrows, and nobody signs for the escrow account, which has no key. */
  predicate CleanStep(cfg: Config, step: Step) {
    step.Ask? ==> step.who != cfg.escrowAccount && (step.escrow == 0 || cfg.existentialDeposit <= step.escrow)
  }

  ghost predicate EscrowSafe(cfg: Config, w: World) {
    && Covered(w.client, cfg) && NoDust(w.client.pending, cfg.existentialDeposit)
    && forall q :: q in w.client.pending ==> q < w.client.nextQuery
  }

  lemma {:induction false} NextKeepsEscrowSafe(cfg: Config, sovereign: Account, w: World, step: Step)
    requires EscrowSafe(cfg, w) && CleanStep(cfg, step)
    ensures EscrowSafe(cfg, NextWorld(cfg, sovereign, w, step))
  {
    hide Ledger.Next;
    hide ExecuteCall;
    match step
    case Ask(who, request, escrow, allow, delivered) =>
      if Request(w.client, cfg, who, request, escrow, allow, delivered).Ok? {
        RequestKeepsCovered(w.client, cfg, who, request, escrow, allow, delivered);
      }
    case Deliver(q, allow) =>
      if q in w.reports {
        var response, origin := ReportOf(w.reports[q]), ResponseFrom(cfg.rightsChain);
        if OnOutcome(w.client, cfg, origin, q, response, allow).Ok? {
          SettlementKeepsCovered(w.client, cfg, origin, q, response, allow);
        }
      }
    case _ =>
  }

  /** In every run without dust escrows the escrow account holds at least the sum of all pending escrows. */
  lemma {:induction false} EscrowAlwaysCovered(cfg: Config, sovereign: Account, w: World, steps: seq<Step>)
    requires IsStart(w)
    requires forall i :: 0 <= i < |steps| ==> CleanStep(cfg, steps[i])
    ensures EscrowSafe(cfg, RunWorld(cfg, sovereign, w, steps))
    decreases |steps|
  {
    if steps == [] {
      assert Escrows(w.client.pending).Keys == {};
    } else {
      hide NextWorld;
      hide Covered;
      EscrowAlwaysCovered(cfg, sovereign, w, steps[..|steps| - 1]);
      NextKeepsEscrowSafe(cfg, sovereign, RunWorld(cfg, sovereign, w, steps[..|steps| - 1]), steps[|steps| - 1]);
    }
  }

  // ---------- Completion ----------

  /** Every pending escrow is within the sum of all. */
  lemma {:induction false} EscrowWithinOwing(pending: map<QueryId, PendingRequest>, q: QueryId)
    requires q in pending
    ensures pending[q].escrow <= Owing(pending)
  {
    OwingRemove(pending, q);
  }

  /** A covered escrow that a report is in flight for is settled by it, as the report says. */
  lemma {:induction false} DeliveryResolves(cfg: Config, w: World, q: QueryId, allow: Policy)
    requires Agreement(cfg, w) && EscrowSafe(cfg, w) && q in w.reports && RefusesNothing(allow)
    ensures q in w.issued && StillPending(w, q)
    ensures var w' := Delivered(cfg, w, q, allow);
            q in w'.issued && if w.reports[q] then Paid(cfg, w', q) else Refunded(w', q)
  {
    hide Granted;
    hide RemoteCall;
    hide PayoutsOf;
    hide Owing;
    hide NoDust;
    assert InFlight(cfg, w, q);
    EscrowWithinOwing(w.client.pending, q);
    var p, response := w.client.pending[q], ReportOf(w.reports[q]);
    SettlementDecided(w.client, cfg, ResponseFrom(cfg.rightsChain), q, response, allow);
    PayoutAppended(w.payouts, Payout(q, Payee(cfg, p, response), p.escrow), q);
  }

  /**
    In every run without dust escrows, delivering a report in flight with a currency that refuses
    nothing settles its request: paid if the call succeeded, refunded if it failed.
  */
  lemma {:induction false} DeliverySettles(cfg: Config, sovereign: Account, w: World, steps: seq<Step>, q: QueryId, allow: Policy)
    requires IsStart(w) && RefusesNothing(allow) && forall i :: 0 <= i < |steps| ==> CleanStep(cfg, steps[i])
    requires q in RunWorld(cfg, sovereign, w, steps).reports
    ensures var r, r' := RunWorld(cfg, sovereign, w, steps), RunWorld(cfg, sovereign, w, steps + [Deliver(q, allow)]);
            && q in r.issued && StillPending(r, q)
            && q in r'.issued && if r.reports[q] then Paid(cfg, r', q) else Refunded(r', q)
  {
    hide Agreement;
    hide EscrowSafe;
    hide Delivered;
    hide RefusesNothing;
    AlwaysAgreement(cfg, sovereign, w, steps);
    EscrowAlwaysCovered(cfg, sovereign, w, steps);
    assert (steps + [Deliver(q, allow)])[..|steps|] == steps;
    DeliveryResolves(cfg, RunWorld(cfg, sovereign, w, steps), q, allow);
  }

  /**
    In every run without dust escrows, a request whose message is in flight is completed by dispatching
    the message and delivering its report: paid with the right granted exactly if the rights chain
    accepts the call, refunded otherwise.
  */
  lemma {:induction false} RequestCompletes(
      cfg: Config, sovereign: Account, w: World, steps: seq<Step>, q: QueryId, env: Env, allow: Policy)
    requires IsStart(w) && RefusesNothing(allow) && forall i :: 0 <= i < |steps| ==> CleanStep(cfg, steps[i])
    requires q in RunWorld(cfg, sovereign, w, steps).messages
    ensures var r := RunWorld(cfg, sovereign, w, steps);
            var r' := RunWorld(cfg, sovereign, w, steps + [Execute(q, env)] + [Deliver(q, allow)]);
            && q in r.issued && q in r'.issued
            && if Apply(r.remote, sovereign, CallFor(r.issued[q].request, r.issued[q].who), env).Ok? then Paid(cfg, r', q)
               else Refunded(r', q)
  {
    hide Agreement;
    hide Delivered;
    hide RefusesNothing;
    hide Apply;
    hide Paid;
    hide Refunded;
    hide StillPending;
    hide ExecuteCall;
    var r, more := RunWorld(cfg, sovereign, w, steps), steps + [Execute(q, env)];
    AlwaysAgreement(cfg, sovereign, w, steps);
    MessageIsDispatched(cfg, sovereign, r, q, env);
    assert more[..|steps|] == steps;
    assert RunWorld(cfg, sovereign, w, more) == Executed(cfg, sovereign, r, q, env);
    DeliverySettles(cfg, sovereign, w, more, q, allow);
  }

  lemma {:induction false} MessageIsDispatched(cfg: Config, sovereign: Account, w: World, q: QueryId, env: Env)
    requires Agreement(cfg, w) && q in w.messages
    ensures q in w.issued
    ensures ExecuteCall(cfg, sovereign, w.remote, w.messages[q], env).ok <==>
            Apply(w.remote, sovereign, CallFor(w.issued[q].request, w.issued[q].who), env).Ok?
  {
    hide Granted;
    hide Apply;
    hide DecodeCall;
    hide RemoteCall;
    assert InFlight(cfg, w, q);
    WireRoundTrip(cfg.rightsPalletIndex, w.issued[q].request, w.issued[q].who.raw);
  }

  // ---------- Dust ----------

  function Always(): Policy { (bank, src, dst, amount) => true }

  /** Two requests, the second with a dust escrow, and a refund of the first. */
  function DustSteps(a: Account, b: Account, q: QueryId, env: Env): seq<Step> {
    [Ask(a, SubscribeTo(0), 10, Always(), true), Ask(b, SubscribeTo(0), 5, Always(), true), Execute(q, env), Deliver(q, Always())]
  }

  /** Both requests are pending. */
  ghost predicate BothPending(cfg: Config, w: World, a: Account, b: Account, q: QueryId) {
    && w.client.pending == map[q := PendingRequest(a, 10, SubscribeTo(0)), q + 1 := PendingRequest(b, 5, SubscribeTo(0))]
    && BalanceOf(w.client.bank, cfg.escrowAccount) == 15
  }

  lemma {:induction false} TwoRequests(cfg: Config, w: World, a: Account, b: Account)
    requires IsStart(w) && BalanceOf(w.client.bank, cfg.escrowAccount) == 0
    requires a != b && a != cfg.escrowAccount && b != cfg.escrowAccount
    requires |a.raw| == ACCOUNT_BYTES && |b.raw| == ACCOUNT_BYTES
    requires 10 <= BalanceOf(w.client.bank, a) && 5 <= BalanceOf(w.client.bank, b)
    ensures var q := w.client.nextQuery;
            var w2 := Asked(cfg, Asked(cfg, w, a, SubscribeTo(0), 10, Always(), true), b, SubscribeTo(0), 5, Always(), true);
            && BothPending(cfg, w2, a, b, q) && w2.remote == w.remote
            && q in w2.messages && w2.messages[q] == RemoteCall(cfg.rightsPalletIndex, SubscribeTo(0), a.raw)
  {
    hide RemoteCall;
  }

  lemma {:induction false} UnknownContentRefused(cfg: Config, sovereign: Account, remote: Chain, a: Account, env: Env)
    requires 0 !in remote.contents && |a.raw| == ACCOUNT_BYTES
    ensures !ExecuteCall(cfg, sovereign, remote, RemoteCall(cfg.rightsPalletIndex, SubscribeTo(0), a.raw), env).ok
  {
    hide DecodeCall;
    hide RemoteCall;
    WireRoundTrip(cfg.rightsPalletIndex, SubscribeTo(0), a.raw);
  }

  lemma {:induction false} RefundReapsDust(cfg: Config, w: World, a: Account, b: Account, q: QueryId)
    requires cfg.existentialDeposit == 10 && a != cfg.escrowAccount
    requires BothPending(cfg, w, a, b, q) && q in w.reports && !w.reports[q]
    ensures var c := Delivered(cfg, w, q, Always()).client;
            BalanceOf(c.bank, cfg.escrowAccount) == 0 && Owing(c.pending) == 5
  {
    var pending := w.client.pending;
    assert pending - {q} == map[q + 1 := PendingRequest(b, 5, SubscribeTo(0))];
    OwingRemove(pending - {q}, q + 1);
    assert Escrows(pending - {q} - {q + 1}).Keys == {};
  }

  lemma {:induction false} SamePending(cfg: Config, w: World, w': World, a: Account, b: Account, q: QueryId)
    requires BothPending(cfg, w, a, b, q) && w'.client == w.client
    ensures BothPending(cfg, w', a, b, q)
  {
  }

  lemma {:induction false} NotCovered(cfg: Config, c: Client)
    requires BalanceOf(c.bank, cfg.escrowAccount) < Owing(c.pending)
    ensures !Covered(c, cfg)
  {
  }

  /**
    Without the premise on escrows coverage fails: from any start with an existential deposit of 10,
    one request with an escrow of 10 for an unknown content, another with an escrow of 5, and the
    refund of the first reaps the second's escrow while it is still pending.
  */
  lemma {:induction false} DustEscrowCanBeLost(cfg: Config, sovereign: Account, w: World, a: Account, b: Account, env: Env)
    requires IsStart(w) && 0 !in w.remote.contents && BalanceOf(w.client.bank, cfg.escrowAccount) == 0
    requires a != b && a != cfg.escrowAccount && b != cfg.escrowAccount && cfg.existentialDeposit == 10
    requires |a.raw| == ACCOUNT_BYTES && |b.raw| == ACCOUNT_BYTES
    requires 10 <= BalanceOf(w.client.bank, a) && 5 <= BalanceOf(w.client.bank, b)
    ensures !Covered(RunWorld(cfg, sovereign, w, DustSteps(a, b, w.client.nextQuery, env)).client, cfg)
  {
    hide BothPending;
    hide Asked;
    hide Delivered;
    hide ExecuteCall;
    hide RemoteCall;
    hide Covered;
    var q := w.client.nextQuery;
    var steps := DustSteps(a, b, q, env);
    assert steps[..3][..2] == steps[..2] && steps[..2][..1] == steps[..1] && steps[..1][..0] == [];
    assert RunWorld(cfg, sovereign, w, []) == w;
    var w2, w3 := RunWorld(cfg, sovereign, w, steps[..2]), RunWorld(cfg, sovereign, w, steps[..3]);
    assert w2 == Asked(cfg, Asked(cfg, w, a, SubscribeTo(0), 10, Always(), true), b, SubscribeTo(0), 5, Always(), true) by {
      assert RunWorld(cfg, sovereign, w, steps[..1]) == Asked(cfg, w, a, SubscribeTo(0), 10, Always(), true);
    }
    TwoRequests(cfg, w, a, b);
    UnknownContentRefused(cfg, sovereign, w.remote, a, env);
    SamePending(cfg, w2, w3, a, b, q);
    RefundReapsDust(cfg, w3, a, b, q);
    NotCovered(cfg, RunWorld(cfg, sovereign, w, steps).client);
  }
}
