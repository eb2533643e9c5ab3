/** When a call is accepted and with which error it is refused; and that accepted settings take effect. */
module Acceptance {
  import opened Numbers
  import opened Checking
  import opened Bank
  import opened Royalties
  import opened RenewalQueue
  import opened Ledger
  import opened Histories
  import opened Effects
  import opened Rights
  import opened Runs
  import opened Theorems
  import opened Authority
  import opened Payments

  // ---------- The checks of every call ----------

  /** Every transfer of a payment for the content is accepted. */
  predicate Payable(s: Chain, payer: Account, c: u32, price: u128, env: Env)
    requires c in s.contents
  {
    PaymentAccepted(s.bank, payer, s.contents[c].creator, SplitsOf(s, c), price, env.allow)
  }

  /** An item id is left in the content's collection. */
  predicate ItemLeft(s: Chain, c: u32) { c in s.contents && ItemCounter(s, s.contents[c].collection) < U32_MAX }

  function Minting(s: Chain, c: u32, env: Env): Checks {
    Require(ItemLeft(s, c), ItemIdOverflow, Require(env.mint, NftFailed, Accept))
  }

  function Subscribing(s: Chain, payer: Account, k: Key, env: Env): Checks {
    var c := k.content;
    Require(c in s.contents, ContentNotFound,
    Require(k !in s.subscriptions, SubscriptionAlreadyExists,
    Require(c in s.contents && Payable(s, payer, c, s.contents[c].subscriptionPrice, env), TransferFailed,
    Minting(s, c, env))))
  }

  function Renewing(s: Chain, payer: Account, k: Key, env: Env): Checks {
    var c := k.content;
    Require(c in s.contents, ContentNotFound,
    Require(k in s.subscriptions, SubscriptionNotFound,
    Require(k in s.subscriptions && s.subscriptions[k].expiry <= s.now, SubscriptionNotExpired,
    Require(c in s.contents && Payable(s, payer, c, s.contents[c].subscriptionPrice, env), TransferFailed,
    Accept))))
  }

  /** A first purchase mints an item; a later one does not. */
  function BuyingViews(s: Chain, payer: Account, k: Key, views: u32, env: Env): Checks {
    var c := k.content;
    var priced := c in s.contents && s.contents[c].ppvPrice * views <= U128_MAX;
    Require(0 < views, ZeroViews,
    Require(c in s.contents, ContentNotFound,
    Require(priced, InsufficientPayment,
    Require(priced && Payable(s, payer, c, s.contents[c].ppvPrice * views, env), TransferFailed,
    if k in s.viewPacks then Accept else Minting(s, c, env)))))
  }

  /** The last view burns the item. */
  function UsingView(s: Chain, k: Key, env: Env): Checks {
    Require(k in s.viewPacks, ViewPackNotFound,
    Require(k in s.viewPacks && 0 < s.viewPacks[k].views, NoViewsRemaining,
    if k in s.viewPacks && s.viewPacks[k].views == 1 then
      Require(k.content in s.contents, ContentNotFound, Require(env.burn, NftFailed, Accept))
    else Accept))
  }

  function BuyingOwnership(s: Chain, payer: Account, k: Key, env: Env): Checks {
    var c := k.content;
    Require(c in s.contents, ContentNotFound,
    Require(k !in s.ownership, AlreadyOwned,
    Require(c in s.contents && Payable(s, payer, c, s.contents[c].ownershipPrice, env), TransferFailed,
    Minting(s, c, env))))
  }

  function MovingOwnership(s: Chain, c: u32, src: Account, dst: Account, env: Env): Checks {
    Require(c in s.contents, ContentNotFound,
    Require(Key(c, src) in s.ownership, OwnershipNotFound,
    Require(Key(c, dst) !in s.ownership, AlreadyOwned,
    Require(env.burn, NftFailed,
    Minting(s, c, env)))))
  }

  /** Auto-renewal can be switched on for a pair that is off and for which the queue has room. */
  ghost function Enabling(s: Chain, k: Key): Checks {
    var c := k.content;
    Require(c in s.contents, ContentNotFound,
    Require(c in s.contents && s.minPeriod <= s.contents[c].period, AutoRenewPeriodTooShort,
    Require(k in s.subscriptions, SubscriptionNotFound,
    Require(k in s.subscriptions && !s.subscriptions[k].autoRenew, AutoRenewAlreadyEnabled,
    Require(k in s.subscriptions && WindowHasRoom(s.queue, k, Max(s.subscriptions[k].expiry, SatAdd32(s.now, 1))), RenewalQueueFull,
    Accept)))))
  }

  function Disabling(s: Chain, k: Key): Checks {
    Require(k in s.subscriptions, SubscriptionNotFound,
    Require(k in s.subscriptions && s.subscriptions[k].autoRenew, AutoRenewNotEnabled,
    Accept))
  }

  function Registering(s: Chain, env: Env): Checks {
    Require(s.nextContent < U32_MAX, ContentIdOverflow,
    Require(s.nextCollection < U32_MAX, ContentIdOverflow,
    Require(env.mint, NftFailed,
    Accept)))
  }

  function ByCreator(s: Chain, who: Account, c: u32, next: Checks): Checks {
    Require(c in s.contents, ContentNotFound,
    Require(c in s.contents && s.contents[c].creator == who, NotContentCreator,
    next))
  }

  /** What each call checks, in order. */
  ghost function ChecksOf(s: Chain, who: Account, call: Call, env: Env): Checks {
    match call
    case RegisterContent(_, _, _, _) => Registering(s, env)
    case Subscribe(c) => Subscribing(s, who, Key(c, who), env)
    case XcmSubscribe(c, b) => Subscribing(s, who, Key(c, b), env)
    case RenewSubscription(c) => Renewing(s, who, Key(c, who), env)
    case XcmRenewSubscription(c, b) => Renewing(s, who, Key(c, b), env)
    case PurchaseViews(c, n) => BuyingViews(s, who, Key(c, who), n, env)
    case XcmPurchaseViews(c, b, n) => BuyingViews(s, who, Key(c, b), n, env)
    case ConsumeView(c) => UsingView(s, Key(c, who), env)
    case ConsumeViewFor(c, viewer) => Require(MeterOf(s, c) == Some(who), Unauthorized, UsingView(s, Key(c, viewer), env))
    case PurchaseOwnership(c) => BuyingOwnership(s, who, Key(c, who), env)
    case XcmPurchaseOwnership(c, b) => BuyingOwnership(s, who, Key(c, b), env)
    case TransferOwnership(c, dst) => MovingOwnership(s, c, who, dst, env)
    case XcmTransferOwnership(c, src, dst) => Require(who == src, Unauthorized, MovingOwnership(s, c, src, dst, env))
    case SetRoyaltySplits(c, parts) =>
      ByCreator(s, who, c, Require(|parts| <= 10 && Points(parts) <= 10_000, InvalidRoyaltySplits, Accept))
    case SetMeter(c, _) => ByCreator(s, who, c, Accept)
    case EnableAutoRenew(c) => Enabling(s, Key(c, who))
    case DisableAutoRenew(c) => Disabling(s, Key(c, who))
  }

  // ---------- Every call is decided by its checks ----------

  lemma {:induction false} PayForDecided(s: Chain, payer: Account, c: u32, price: u128, env: Env)
    requires c in s.contents
    ensures var r := PayFor(s, payer, c, price, env.allow);
            && (r.Ok? <==> Payable(s, payer, c, price, env))
            && (r.Err? ==> r.error == TransferFailed)
            && (r.Ok? ==> r.value.nextItem == s.nextItem)
  {
    hide Pay;
    hide PaymentAccepted;
    PaymentAcceptedIff(s.bank, payer, s.contents[c].creator, SplitsOf(s, c), price, env.allow);
  }

  lemma {:induction false} MintDecided(s: Chain, s': Chain, c: u32, env: Env)
    requires c in s.contents && s'.nextItem == s.nextItem
    ensures Decides(Minting(s, c, env), MintChild(s', s.contents[c], env))
  {
    RefusalOf(Minting(s, c, env));
    RefusalOf(Minting(s, c, env).next);
  }

  lemma {:induction false} SubscribingDecides(s: Chain, payer: Account, k: Key, env: Env)
    ensures Decides(Subscribing(s, payer, k, env), GrantSubscription(s, payer, k, env))
  {
    hide PayFor;
    hide MintChild;
    hide Minting;
    hide Payable;
    if k.content in s.contents {
      var price := s.contents[k.content].subscriptionPrice;
      PayForDecided(s, payer, k.content, price, env);
      var paid := PayFor(s, payer, k.content, price, env.allow);
      if paid.Ok? {
        MintDecided(s, paid.value, k.content, env);
      }
    }
    var checks := Subscribing(s, payer, k, env);
    RefusalOf(checks.next);
  }

  lemma {:induction false} RenewingDecides(s: Chain, payer: Account, k: Key, env: Env)
    ensures Decides(Renewing(s, payer, k, env), ExtendSubscription(s, payer, k, env))
  {
    hide PayFor;
    hide Payable;
    if k.content in s.contents {
      PayForDecided(s, payer, k.content, s.contents[k.content].subscriptionPrice, env);
    }
    var checks := Renewing(s, payer, k, env);
    RefusalOf(checks.next);
    RefusalOf(checks.next.next);
    RefusalOf(checks.next.next.next);
  }

  lemma {:induction false} BuyingViewsDecides(s: Chain, payer: Account, k: Key, views: u32, env: Env)
    ensures Decides(BuyingViews(s, payer, k, views, env), GrantViews(s, payer, k, views, env))
  {
    hide PayFor;
    hide MintChild;
    hide Minting;
    hide Payable;
    if k.content in s.contents && s.contents[k.content].ppvPrice * views <= U128_MAX {
      var price := s.contents[k.content].ppvPrice * views;
      PayForDecided(s, payer, k.content, price, env);
      var paid := PayFor(s, payer, k.content, price, env.allow);
      if paid.Ok? {
        MintDecided(s, paid.value, k.content, env);
      }
    }
    var checks := BuyingViews(s, payer, k, views, env);
    RefusalOf(checks.next);
    RefusalOf(checks.next.next);
    RefusalOf(checks.next.next.next);
  }

  lemma {:induction false} UsingViewDecides(s: Chain, k: Key, env: Env)
    ensures Decides(UsingView(s, k, env), UseView(s, k, env))
  {
    var checks := UsingView(s, k, env);
    RefusalOf(checks.next);
    if k in s.viewPacks && s.viewPacks[k].views == 1 {
      RefusalOf(checks.next.next);
      RefusalOf(checks.next.next.next);
    }
  }

  lemma {:induction false} BuyingOwnershipDecides(s: Chain, payer: Account, k: Key, env: Env)
    ensures Decides(BuyingOwnership(s, payer, k, env), GrantOwnership(s, payer, k, env))
  {
    hide PayFor;
    hide MintChild;
    hide Minting;
    hide Payable;
    if k.content in s.contents {
      var price := s.contents[k.content].ownershipPrice;
      PayForDecided(s, payer, k.content, price, env);
      var paid := PayFor(s, payer, k.content, price, env.allow);
      if paid.Ok? {
        MintDecided(s, paid.value, k.content, env);
      }
    }
    RefusalOf(BuyingOwnership(s, payer, k, env).next);
  }

  lemma {:induction false} MovingOwnershipDecides(s: Chain, c: u32, src: Account, dst: Account, env: Env)
    ensures Decides(MovingOwnership(s, c, src, dst, env), MoveOwnership(s, c, src, dst, env))
  {
    hide MintChild;
    hide Minting;
    if c in s.contents && Key(c, src) in s.ownership {
      var burnt := BurnChild(s, s.contents[c].collection, s.ownership[Key(c, src)], env);
      if burnt.Ok? {
        MintDecided(s, burnt.value, c, env);
      }
    }
    var checks := MovingOwnership(s, c, src, dst, env);
    RefusalOf(checks.next);
    RefusalOf(checks.next.next);
    RefusalOf(checks.next.next.next);
  }

  lemma {:induction false} EnablingDecides(s: Chain, k: Key)
    requires Bounded(s.queue)
    ensures Decides(Enabling(s, k), EnableRenewal(s, k))
  {
    hide Enqueue;
    hide WindowHasRoom;
    hide SetAutoRenew;
    if k in s.subscriptions {
      EnqueuedIffRoom(s.queue, k, Max(s.subscriptions[k].expiry, SatAdd32(s.now, 1)));
    }
    var checks := Enabling(s, k);
    RefusalOf(checks.next);
    RefusalOf(checks.next.next);
    RefusalOf(checks.next.next.next);
    RefusalOf(checks.next.next.next.next);
  }

  lemma {:induction false} SettingDecides(s: Chain, who: Account, call: Call, env: Env)
    requires call.SetRoyaltySplits? || call.SetMeter? || call.DisableAutoRenew? || call.RegisterContent?
    ensures Decides(ChecksOf(s, who, call, env), Apply(s, who, call, env))
  {
    hide GrantSubscription;
    hide ExtendSubscription;
    hide GrantViews;
    hide GrantOwnership;
    hide MoveOwnership;
    hide UseView;
    hide EnableRenewal;
    var checks := ChecksOf(s, who, call, env);
    RefusalOf(checks);
    RefusalOf(checks.next);
    if checks.next.next.Require? {
      RefusalOf(checks.next.next);
    }
  }

  /** A call that first checks who signs it is decided by that check and then by the rest. */
  lemma {:induction false} SignerDecides(holds: bool, rest: Checks, r: Result<Chain>, r': Result<Chain>)
    requires Decides(rest, r) && r' == if holds then r else Err(Unauthorized)
    ensures Decides(Require(holds, Unauthorized, rest), r')
  {
  }

  /**
    Every call is accepted exactly if all its checks hold and is otherwise refused with the error of
    the first that fails: whether the payment is accepted, an item id is left and the queue has room
    is all that can stand in the way of an entitled caller.
  */
  lemma {:induction false} CallDecided(s: Chain, who: Account, call: Call, env: Env)
    requires Bounded(s.queue)
    ensures Decides(ChecksOf(s, who, call, env), Apply(s, who, call, env))
  {
    hide Decides;
    hide GrantSubscription;
    hide ExtendSubscription;
    hide GrantViews;
    hide GrantOwnership;
    hide MoveOwnership;
    hide UseView;
    hide EnableRenewal;
    hide DisableRenewal;
    hide ReplaceSplits;
    hide ReplaceMeter;
    hide Register;
    hide Subscribing;
    hide Renewing;
    hide BuyingViews;
    hide BuyingOwnership;
    hide UsingView;
    hide MovingOwnership;
    hide Enabling;
    hide Disabling;
    hide Registering;
    hide ByCreator;
    match call
    case Subscribe(c) => SubscribingDecides(s, who, Key(c, who), env);
    case XcmSubscribe(c, b) => SubscribingDecides(s, who, Key(c, b), env);
    case RenewSubscription(c) => RenewingDecides(s, who, Key(c, who), env);
    case XcmRenewSubscription(c, b) => RenewingDecides(s, who, Key(c, b), env);
    case PurchaseViews(c, n) => BuyingViewsDecides(s, who, Key(c, who), n, env);
    case XcmPurchaseViews(c, b, n) => BuyingViewsDecides(s, who, Key(c, b), n, env);
    case ConsumeView(c) => UsingViewDecides(s, Key(c, who), env);
    case ConsumeViewFor(c, viewer) =>
      var k := Key(c, viewer);
      UsingViewDecides(s, k, env);
      SignerDecides(MeterOf(s, c) == Some(who), UsingView(s, k, env), UseView(s, k, env), Apply(s, who, call, env));
    case PurchaseOwnership(c) => BuyingOwnershipDecides(s, who, Key(c, who), env);
    case XcmPurchaseOwnership(c, b) => BuyingOwnershipDecides(s, who, Key(c, b), env);
    case TransferOwnership(c, dst) => MovingOwnershipDecides(s, c, who, dst, env);
    case XcmTransferOwnership(c, src, dst) =>
      MovingOwnershipDecides(s, c, src, dst, env);
      SignerDecides(who == src, MovingOwnership(s, c, src, dst, env), MoveOwnership(s, c, src, dst, env), Apply(s, who, call, env));
    case EnableAutoRenew(c) => EnablingDecides(s, Key(c, who));
    case _ => SettingDecides(s, who, call, env);
  }

  /**
    In every reachable state every call is decided by its checks; a stored view pack always has a view
    left and its content exists, so those two checks never refuse a viewer.
  */
  lemma {:induction false} CallsDecided(s: Chain, steps: seq<Step>, who: Account, call: Call, env: Env)
    requires IsGenesis(s)
    ensures var r := Run(s, steps);
            var result := Apply(r, who, call, env);
            && Decides(ChecksOf(r, who, call, env), result)
            && (call.ConsumeView? || call.ConsumeViewFor? ==>
                  result != Err(NoViewsRemaining) && result != Err(ContentNotFound))
  {
    hide Run;
    hide Apply;
    hide ChecksOf;
    hide Sound;
    var r := Run(s, steps);
    AlwaysSound(s, steps);
    CallDecided(r, who, call, env);
    if call.ConsumeView? || call.ConsumeViewFor? {
      ViewersAreServed(r, who, call, env);
    }
  }

  lemma {:induction false} ViewersAreServed(s: Chain, who: Account, call: Call, env: Env)
    requires Sound(s) && (call.ConsumeView? || call.ConsumeViewFor?)
    ensures Apply(s, who, call, env) != Err(NoViewsRemaining) && Apply(s, who, call, env) != Err(ContentNotFound)
  {
    hide GrantSubscription;
    hide ExtendSubscription;
    hide GrantViews;
    hide GrantOwnership;
    hide MoveOwnership;
    assert KeyRecorded(s, Key(call.content, if call.ConsumeView? then who else call.viewer));
  }

  // ---------- Willing surroundings ----------

  /** What a purchase in its cross-chain form asks of the beneficiary's rights and of the item counter. */
  predicate Entitled(s: Chain, call: Call)
    requires Buys(call) && !call.Subscribe? && !call.RenewSubscription? && !call.PurchaseViews? && !call.PurchaseOwnership?
    requires call.content in s.contents
  {
    var k := Key(call.content, call.beneficiary);
    match call
    case XcmSubscribe(c, _) => k !in s.subscriptions && ItemLeft(s, c)
    case XcmRenewSubscription(_, _) => k in s.subscriptions && s.subscriptions[k].expiry <= s.now
    case XcmPurchaseViews(c, _, n) => 0 < n && s.contents[c].ppvPrice * n <= U128_MAX && (k in s.viewPacks || ItemLeft(s, c))
    case XcmPurchaseOwnership(c, _) => k !in s.ownership && ItemLeft(s, c)
  }

  lemma {:induction false} AffordableIsPayable(s: Chain, payer: Account, c: u32, price: u128, env: Env)
    requires Catalogued(s) && c in s.contents && RefusesNothing(env.allow) && price <= BalanceOf(s.bank, payer)
    ensures Payable(s, payer, c, price, env)
  {
    hide PaymentAccepted;
    hide Pay;
    var creator, splits := s.contents[c].creator, SplitsOf(s, c);
    assert Points(splits) <= BASIS_POINTS;
    WillingPaymentIff(s.bank, payer, creator, splits, price, env.allow);
    PaymentAcceptedIff(s.bank, payer, creator, splits, price, env.allow);
  }

  lemma {:induction false} MintingPasses(s: Chain, c: u32, env: Env)
    requires env.mint
    ensures Refusal(Minting(s, c, env)) == if ItemLeft(s, c) then None else Some(ItemIdOverflow)
  {
    RefusalOf(Minting(s, c, env));
    RefusalOf(Minting(s, c, env).next);
  }

  lemma {:induction false} EntitledPasses(s: Chain, who: Account, call: Call, env: Env)
    requires Buys(call) && call == AsCrossChain(who, call) && call.content in s.contents
    requires Catalogued(s) && RefusesNothing(env.allow) && env.mint
    requires PriceOf(s, call).Some? && PriceOf(s, call).value <= BalanceOf(s.bank, who)
    ensures Refusal(ChecksOf(s, who, call, env)) == None <==> Entitled(s, call)
  {
    hide Minting;
    hide Payable;
    hide Catalogued;
    hide RefusesNothing;
    var c, checks := call.content, ChecksOf(s, who, call, env);
    MintingPasses(s, c, env);
    if PriceOf(s, call).value <= U128_MAX {
      AffordableIsPayable(s, who, c, PriceOf(s, call).value, env);
    }
    RefusalOf(checks);
    RefusalOf(checks.next);
    RefusalOf(checks.next.next);
    if checks.next.next.next.Require? {
      RefusalOf(checks.next.next.next);
    }
  }

  /**
    In every reachable state, if the currency and the NFT pallet refuse nothing and the signer holds
    the price of an existing content's right, then the purchase succeeds exactly if the beneficiary is
    entitled to it: whatever the royalty splits are, also when they leave nothing to the creator.
  */
  lemma {:induction false} WillingPurchaseIff(s: Chain, steps: seq<Step>, who: Account, call: Call, env: Env)
    requires IsGenesis(s) && Buys(call) && call.content in Run(s, steps).contents
    requires RefusesNothing(env.allow) && env.mint
    requires PriceOf(Run(s, steps), call).Some? && PriceOf(Run(s, steps), call).value <= BalanceOf(Run(s, steps).bank, who)
    ensures Apply(Run(s, steps), who, call, env).Ok? <==> Entitled(Run(s, steps), AsCrossChain(who, call))
  {
    hide Run;
    hide Apply;
    hide ChecksOf;
    hide Sound;
    hide RefusesNothing;
    hide Entitled;
    AlwaysSound(s, steps);
    var r := Run(s, steps);
    var xcm := AsCrossChain(who, call);
    LocalIsCrossChain(r, who, call, env);
    CallDecided(r, who, xcm, env);
    SoundIsCatalogued(r);
    EntitledPasses(r, who, xcm, env);
  }

  lemma {:induction false} SoundIsCatalogued(s: Chain)
    requires Sound(s)
    ensures Catalogued(s)
  {
  }

  // ---------- Settings take effect ----------

  /** The creator's valid splits, and nothing else, are accepted; they are then in force for that content and no other. */
  lemma {:induction false} SplitsTakeEffect(s: Chain, who: Account, c: u32, parts: seq<Split>, env: Env, c': u32)
    ensures var r := Apply(s, who, SetRoyaltySplits(c, parts), env);
            && (r.Ok? <==> c in s.contents && s.contents[c].creator == who && |parts| <= 10 && Points(parts) <= 10_000)
            && (r.Ok? ==> SplitsOf(r.value, c') == if c' == c then parts else SplitsOf(s, c'))
  {
  }

  /** The creator, and nobody else, sets or clears the meter; it is then in force for that content and no other. */
  lemma {:induction false} MeterTakesEffect(s: Chain, who: Account, c: u32, meter: Option<Account>, env: Env, c': u32)
    ensures var r := Apply(s, who, SetMeter(c, meter), env);
            && (r.Ok? <==> c in s.contents && s.contents[c].creator == who)
            && (r.Ok? ==> MeterOf(r.value, c') == if c' == c then meter else MeterOf(s, c'))
  {
  }

  /** The step is an accepted call that sets the splits of the content. */
  predicate SetsSplits(s: Chain, step: Step, c: u32) {
    && step.Extrinsic? && step.call.SetRoyaltySplits? && step.call.content == c
    && c in s.contents && s.contents[c].creator == step.who
    && |step.call.splits| <= 10 && Points(step.call.splits) <= 10_000
  }

  /** The step is an accepted call that sets or clears the meter of the content. */
  predicate SetsMeter(s: Chain, step: Step, c: u32) {
    && step.Extrinsic? && step.call.SetMeter? && step.call.content == c
    && c in s.contents && s.contents[c].creator == step.who
  }

  /** The splits last set for the content in a run; none at first. */
  function LastSplits(s: Chain, steps: seq<Step>, c: u32): seq<Split>
    decreases |steps|
  {
    if steps == [] then []
    else
      var before, last := steps[..|steps| - 1], steps[|steps| - 1];
      if SetsSplits(Run(s, before), last, c) then last.call.splits else LastSplits(s, before, c)
  }

  /** The meter last set for the content in a run; none at first. */
  function LastMeter(s: Chain, steps: seq<Step>, c: u32): Option<Account>
    decreases |steps|
  {
    if steps == [] then None
    else
      var before, last := steps[..|steps| - 1], steps[|steps| - 1];
      if SetsMeter(Run(s, before), last, c) then last.call.meter else LastMeter(s, before, c)
  }

  lemma {:induction false} StepSetsSplits(s: Chain, step: Step, c: u32)
    ensures SplitsOf(Next(s, step), c) == if SetsSplits(s, step, c) then step.call.splits else SplitsOf(s, c)
  {
    hide Apply;
    if step.Extrinsic? && step.call.SetRoyaltySplits? {
      SplitsTakeEffect(s, step.who, step.call.content, step.call.splits, step.env, c);
    } else {
      StepAuthority(s, step, Key(c, Account([])));
    }
  }

  lemma {:induction false} StepSetsMeter(s: Chain, step: Step, c: u32)
    ensures MeterOf(Next(s, step), c) == if SetsMeter(s, step, c) then step.call.meter else MeterOf(s, c)
  {
    hide Apply;
    if step.Extrinsic? && step.call.SetMeter? {
      MeterTakesEffect(s, step.who, step.call.content, step.call.meter, step.env, c);
    } else {
      StepAuthority(s, step, Key(c, Account([])));
    }
  }

  /** At every moment of a run the splits and the meter in force are those its creator last set. */
  lemma {:induction false} LastSettingsInForce(s: Chain, steps: seq<Step>, c: u32)
    requires IsGenesis(s)
    ensures SplitsOf(Run(s, steps), c) == LastSplits(s, steps, c)
    ensures MeterOf(Run(s, steps), c) == LastMeter(s, steps, c)
    decreases |steps|
  {
    hide Next;
    hide SetsSplits;
    hide SetsMeter;
    if steps == [] {
    } else {
      var before, last := steps[..|steps| - 1], steps[|steps| - 1];
      LastSettingsInForce(s, before, c);
      StepSetsSplits(Run(s, before), last, c);
      StepSetsMeter(Run(s, before), last, c);
    }
  }

  /**
    In every reachable state a subscriber can switch auto-renewal on exactly if it is off for them,
    the content's period is long enough and the queue has room, and off exactly if it is on. The switch
    takes effect in flag, index and log and leaves the subscription otherwise as it was.
  */
  lemma {:induction false} SwitchIff(s: Chain, steps: seq<Step>, who: Account, c: u32, env: Env)
    requires IsGenesis(s)
    ensures var r, k := Run(s, steps), Key(c, who);
            var on, off := Apply(r, who, EnableAutoRenew(c), env), Apply(r, who, DisableAutoRenew(c), env);
            && (on.Ok? <==>
                  && c in r.contents && r.minPeriod <= r.contents[c].period
                  && k in r.subscriptions && !r.subscriptions[k].autoRenew
                  && WindowHasRoom(r.queue, k, Max(r.subscriptions[k].expiry, SatAdd32(r.now, 1))))
            && (off.Ok? <==> k in r.subscriptions && r.subscriptions[k].autoRenew)
            && (on.Ok? ==> SwitchedTo(r, on.value, k, true))
            && (off.Ok? ==> SwitchedTo(r, off.value, k, false))
  {
    hide Run;
    hide Apply;
    hide ChecksOf;
    hide Sound;
    hide WindowHasRoom;
    hide SwitchedTo;
    AlwaysSound(s, steps);
    var r, k := Run(s, steps), Key(c, who);
    var on, off := Apply(r, who, EnableAutoRenew(c), env), Apply(r, who, DisableAutoRenew(c), env);
    EnableIff(r, who, c, env);
    DisableIff(r, who, c, env);
    if on.Ok? {
      SwitchEffect(r, who, EnableAutoRenew(c), env, on.value);
      SwitchedIsSwitchedTo(r, on.value, k, true);
    }
    if off.Ok? {
      SwitchEffect(r, who, DisableAutoRenew(c), env, off.value);
      SwitchedIsSwitchedTo(r, off.value, k, false);
    }
  }

  /** The pair's auto-renewal is now as given, in flag, index and log, and nothing else of its subscription changed. */
  ghost predicate SwitchedTo(s: Chain, s': Chain, k: Key, on: bool)
    requires k in s.subscriptions
  {
    && k in s'.subscriptions && s'.subscriptions[k] == s.subscriptions[k].(autoRenew := on)
    && (k in s'.autoRenew <==> on) && (SwitchedOn(s'.log, k) <==> on)
    && (on ==> EnabledAt(s'.log, k) == s.now)
  }

  lemma {:induction false} SwitchedIsSwitchedTo(s: Chain, s': Chain, k: Key, on: bool)
    requires Switched(s, s', k, on)
    ensures SwitchedTo(s, s', k, on)
  {
  }

  lemma {:induction false} EnableIff(s: Chain, who: Account, c: u32, env: Env)
    requires Bounded(s.queue)
    ensures var k := Key(c, who);
            Apply(s, who, EnableAutoRenew(c), env).Ok? <==>
            && c in s.contents && s.minPeriod <= s.contents[c].period
            && k in s.subscriptions && !s.subscriptions[k].autoRenew
            && WindowHasRoom(s.queue, k, Max(s.subscriptions[k].expiry, SatAdd32(s.now, 1)))
  {
    hide WindowHasRoom;
    hide EnableRenewal;
    EnablingDecides(s, Key(c, who));
    var checks := Enabling(s, Key(c, who));
    RefusalOf(checks.next);
    RefusalOf(checks.next.next);
    RefusalOf(checks.next.next.next);
    RefusalOf(checks.next.next.next.next);
  }

  lemma {:induction false} DisableIff(s: Chain, who: Account, c: u32, env: Env)
    ensures Apply(s, who, DisableAutoRenew(c), env).Ok? <==>
            Key(c, who) in s.subscriptions && s.subscriptions[Key(c, who)].autoRenew
  {
  }
}
