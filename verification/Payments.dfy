/** Payments on the rights chain are exact: those of single calls and the hook's batch of renewals. */
module Payments {
  import opened Numbers
  import opened Bank
  import opened Royalties
  import opened RenewalQueue
  import opened Ledger
  import opened Histories
  import opened Effects
  import opened Rights
  import opened Runs

  // ---------- The hook's batch ----------

  /** What a renewal of the pair, paid by its own holder, does to account `a`. */
  function ChargeFor(s: Chain, k: Key, a: Account): int {
    if k.content !in s.contents then 0
    else
      var content := s.contents[k.content];
      Owed(SplitsOf(s, k.content), content.subscriptionPrice, content.creator, a)
      - Outflow(k.who, content.subscriptionPrice, a)
  }

  /** What renewals of several pairs together do to account `a`. */
  function ChargesFor(s: Chain, ks: seq<Key>, a: Account): int {
    if ks == [] then 0 else ChargeFor(s, ks[0], a) + ChargesFor(s, ks[1..], a)
  }

  /** At its turn the entry's pair is enabled and expired, and the currency accepts its whole payment. */
  ghost predicate Renews(s: Chain, k: Key, allow: Policy) {
    && k in s.autoRenew && k in s.subscriptions && s.subscriptions[k].autoRenew && k.content in s.contents
    && s.subscriptions[k].expiry <= s.now
    && var content := s.contents[k.content];
       PaymentAccepted(s.bank, k.who, content.creator, SplitsOf(s, k.content), content.subscriptionPrice, allow)
  }

  /** The due entries that are renewed at their turn, in order. */
  ghost function Renewals(s: Chain, due: seq<Key>, allow: Policy): seq<Key>
    decreases |due|
  {
    if due == [] then []
    else (if Renews(s, due[0], allow) then [due[0]] else []) + Renewals(RenewEntry(s, due[0], allow), due[1..], allow)
  }

  /** The charges on a log, oldest first. */
  function Charges(h: History): seq<Event> {
    match h
    case Genesis => []
    case Then(past, e) => Charges(past) + (if e.Charged? then [e] else [])
  }

  /** One charge per pair, each paid by its own holder. */
  function ChargedBy(ks: seq<Key>, now: u32): seq<Event> {
    if ks == [] then [] else [Charged(ks[0], ks[0].who, now)] + ChargedBy(ks[1..], now)
  }

  /** The log `h'` continues `h`. */
  ghost predicate Continues(h': History, h: History) {
    h' == h || (h'.Then? && Continues(h'.past, h))
  }

  lemma {:induction false} ContinuesTransitive(h2: History, h1: History, h0: History)
    requires Continues(h2, h1) && Continues(h1, h0)
    ensures Continues(h2, h0)
  {
    if h2 == h1 {
    } else {
      ContinuesTransitive(h2.past, h1, h0);
    }
  }

  lemma {:induction false} ChargedByConcat(a: seq<Key>, b: seq<Key>, now: u32)
    ensures ChargedBy(a + b, now) == ChargedBy(a, now) + ChargedBy(b, now)
  {
    if a == [] {
      assert a + b == b;
    } else {
      assert (a + b)[1..] == a[1..] + b;
      ChargedByConcat(a[1..], b, now);
    }
  }

  lemma {:induction false} ChargesForConcat(s: Chain, x: seq<Key>, y: seq<Key>, a: Account)
    ensures ChargesFor(s, x + y, a) == ChargesFor(s, x, a) + ChargesFor(s, y, a)
  {
    hide ChargeFor;
    if x == [] {
      assert x + y == y;
    } else {
      assert (x + y)[1..] == x[1..] + y;
      ChargesForConcat(s, x[1..], y, a);
    }
  }

  ghost predicate SamePrices(s: Chain, s': Chain) { s'.contents == s.contents && s'.splits == s.splits }

  lemma {:induction false} SamePricesSameCharges(s: Chain, s': Chain, ks: seq<Key>, a: Account)
    requires SamePrices(s, s')
    ensures ChargesFor(s', ks, a) == ChargesFor(s, ks, a)
  {
    if ks == [] {
    } else {
      SamePricesSameCharges(s, s', ks[1..], a);
    }
  }

  /** From `s` to `s'` exactly the pairs `ks` were charged: on the log, and on every account. */
  ghost predicate ExactlyCharged(s: Chain, s': Chain, ks: seq<Key>, a: Account) {
    && SamePrices(s, s') && s'.now == s.now
    && BalanceOf(s'.bank, a) - BalanceOf(s.bank, a) == ChargesFor(s, ks, a)
    && Issuance(s'.bank) == Issuance(s.bank)
    && Continues(s'.log, s.log)
    && Charges(s'.log) == Charges(s.log) + ChargedBy(ks, s.now)
  }

  lemma {:induction false} ExactlyChargedTransitive(s: Chain, mid: Chain, s': Chain, x: seq<Key>, y: seq<Key>, a: Account)
    requires ExactlyCharged(s, mid, x, a) && ExactlyCharged(mid, s', y, a)
    ensures ExactlyCharged(s, s', x + y, a)
  {
    hide ChargesFor;
    hide ChargedBy;
    hide Charges;
    hide Continues;
    SamePricesSameCharges(s, mid, y, a);
    ChargesForConcat(s, x, y, a);
    ChargedByConcat(x, y, s.now);
    ContinuesTransitive(s'.log, mid.log, s.log);
  }

  lemma {:induction false} ChargeIsExact(s: Chain, k: Key, allow: Policy, a: Account, s': Chain)
    requires Catalogued(s) && ExtendSubscription(s, k.who, k, Env(allow, false, false)) == Ok(s')
    ensures ExactlyCharged(s, s', [k], a)
  {
    hide Pay;
    var content := s.contents[k.content];
    assert s'.bank == Pay(s.bank, k.who, content.creator, SplitsOf(s, k.content), content.subscriptionPrice, allow).value;
    assert s'.log == Then(s.log, Charged(k, k.who, s.now));
    PaymentExact(s.bank, k.who, content.creator, SplitsOf(s, k.content), content.subscriptionPrice, allow, a);
    assert ChargesFor(s, [k], a) == ChargeFor(s, k, a);
    assert ChargedBy([k], s.now) == [Charged(k, k.who, s.now)];
    assert Charges(s'.log) == Charges(s.log) + [Charged(k, k.who, s.now)];
    assert Continues(s.log, s.log);
    assert Continues(s'.log, s.log);
    assert SamePrices(s, s');
  }

  /** A step that pays nothing and logs no charge. */
  lemma {:induction false} FreeStep(s: Chain, s': Chain, a: Account)
    requires SamePrices(s, s') && s'.bank == s.bank && s'.now == s.now
    requires s'.log == s.log || (s'.log.Then? && s'.log.past == s.log && !s'.log.last.Charged?)
    ensures ExactlyCharged(s, s', [], a)
  {
    hide ChargeFor;
    assert Continues(s.log, s.log);
  }

  lemma {:induction false} RequeueIsFree(s: Chain, k: Key, at: u32, a: Account)
    requires k in s.subscriptions
    ensures ExactlyCharged(s, Requeue(s, k, at), [], a)
  {
    hide ExactlyCharged;
    hide SetAutoRenew;
    if Enqueue(s.queue, k, at).Some? {
      FreeStep(s, s.(queue := Enqueue(s.queue, k, at).value), a);
    } else {
      SwitchOffIsFree(s, k, a);
    }
  }

  lemma {:induction false} DropIsFree(s: Chain, k: Key, a: Account)
    ensures ExactlyCharged(s, s, [], a) && ExactlyCharged(s, s.(autoRenew := s.autoRenew - {k}), [], a)
  {
    hide ExactlyCharged;
    FreeStep(s, s, a);
    FreeStep(s, s.(autoRenew := s.autoRenew - {k}), a);
  }

  lemma {:induction false} SwitchOffIsFree(s: Chain, k: Key, a: Account)
    requires k in s.subscriptions
    ensures ExactlyCharged(s, SetAutoRenew(s, k, false), [], a)
  {
    hide ExactlyCharged;
    FreeStep(s, SetAutoRenew(s, k, false), a);
  }

  /** An expired pair's payment is accepted exactly when its renewal succeeds. */
  lemma {:induction false} RenewsIffExtends(s: Chain, k: Key, allow: Policy)
    requires k.content in s.contents && k in s.subscriptions && s.subscriptions[k].autoRenew
    requires k in s.autoRenew && s.subscriptions[k].expiry <= s.now
    ensures Renews(s, k, allow) <==> ExtendSubscription(s, k.who, k, Env(allow, false, false)).Ok?
  {
    hide Pay;
    hide PaymentAccepted;
    var content := s.contents[k.content];
    PaymentAcceptedIff(s.bank, k.who, content.creator, SplitsOf(s, k.content), content.subscriptionPrice, allow);
  }

  lemma {:induction false} DueEntryIsExact(s: Chain, k: Key, allow: Policy, a: Account)
    requires Catalogued(s) && k.content in s.contents && k in s.subscriptions && s.subscriptions[k].autoRenew
    requires k in s.autoRenew && s.subscriptions[k].expiry <= s.now
    ensures ExactlyCharged(s, RenewEntry(s, k, allow), if Renews(s, k, allow) then [k] else [], a)
  {
    hide ExactlyCharged;
    hide Catalogued;
    hide Renews;
    hide Requeue;
    RenewsIffExtends(s, k, allow);
    var r := ExtendSubscription(s, k.who, k, Env(allow, false, false));
    if r.Ok? {
      ChargeIsExact(s, k, allow, a, r.value);
      RequeueIsFree(r.value, k, SatAdd32(s.now, s.contents[k.content].period), a);
      ExactlyChargedTransitive(s, r.value, RenewEntry(s, k, allow), [k], [], a);
      assert [k] + [] == [k];
    } else {
      SwitchOffIsFree(s, k, a);
    }
  }

  lemma {:induction false} EntryIsExact(s: Chain, k: Key, allow: Policy, a: Account)
    requires Catalogued(s)
    ensures ExactlyCharged(s, RenewEntry(s, k, allow), if Renews(s, k, allow) then [k] else [], a)
  {
    hide ExactlyCharged;
    hide Catalogued;
    hide ExtendSubscription;
    hide Requeue;
    hide SetAutoRenew;
    hide Pay;
    if k !in s.autoRenew || k !in s.subscriptions || !s.subscriptions[k].autoRenew {
      DropIsFree(s, k, a);
    } else if s.now < s.subscriptions[k].expiry {
      RequeueIsFree(s, k, s.subscriptions[k].expiry, a);
    } else if k.content !in s.contents {
      SwitchOffIsFree(s, k, a);
    } else {
      DueEntryIsExact(s, k, allow, a);
    }
  }

  lemma {:induction false} RenewAllIsExact(s: Chain, due: seq<Key>, allow: Policy, a: Account)
    requires Sound(s)
    ensures ExactlyCharged(s, RenewAll(s, due, allow), Renewals(s, due, allow), a)
    decreases |due|
  {
    hide ExactlyCharged;
    hide Renews;
    hide RenewEntry;
    if due == [] {
      DropIsFree(s, Key(0, Account([])), a);
    } else {
      var s1 := RenewEntry(s, due[0], allow);
      EntryIsExact(s, due[0], allow, a);
      EntrySound(s, due[0], allow);
      RenewAllIsExact(s1, due[1..], allow, a);
      ExactlyChargedTransitive(s, s1, RenewAll(s, due, allow),
                               if Renews(s, due[0], allow) then [due[0]] else [], Renewals(s1, due[1..], allow), a);
    }
  }

  /**
    In any block of any run the hook charges exactly the due entries that are, at their turn, enabled,
    expired and accepted by the currency: its log continues the old one with one charge for each, paid
    by its own holder, every balance changes by exactly their full prices split by royalties, and
    issuance is kept. An entry that fails, even part-way through its splits, contributes nothing.
  */
  lemma {:induction false} HookIsExactBatch(s: Chain, steps: seq<Step>, allow: Policy, a: Account)
    requires IsGenesis(s) && Run(s, steps).now + 1 < U32_MAX
    ensures var r := Run(s, steps);
            var r' := NextBlock(r, allow);
            var renewed := Renewals(OpenBlock(r), Bucket(r.queue, r.now + 1), allow);
            && Continues(r'.log, r.log)
            && Charges(r'.log) == Charges(r.log) + ChargedBy(renewed, r.now + 1)
            && BalanceOf(r'.bank, a) - BalanceOf(r.bank, a) == ChargesFor(r, renewed, a)
            && Issuance(r'.bank) == Issuance(r.bank)
  {
    hide Run;
    hide RenewAll;
    hide Renewals;
    hide ChargesFor;
    hide ChargedBy;
    hide Charges;
    hide Continues;
    hide Sound;
    AlwaysSound(s, steps);
    var r := Run(s, steps);
    var begun, due := OpenBlock(r), Bucket(r.queue, r.now + 1);
    OpenBlockSound(r);
    RenewAllIsExact(begun, due, allow, a);
    SamePricesSameCharges(r, begun, Renewals(begun, due, allow), a);
  }

  /** The pair was neither charged nor switched, on its subscription, in the index and on the log. */
  ghost predicate LeftAlone(s: Chain, s': Chain, k: Key) {
    && (k in s'.subscriptions <==> k in s.subscriptions)
    && (k in s.subscriptions ==> s'.subscriptions[k] == s.subscriptions[k])
    && (k in s'.autoRenew <==> k in s.autoRenew)
    && LastCharge(s'.log, k) == LastCharge(s.log, k)
  }

  lemma {:induction false} LeftAloneTransitive(s: Chain, mid: Chain, s': Chain, k: Key)
    requires LeftAlone(s, mid, k) && LeftAlone(mid, s', k)
    ensures LeftAlone(s, s', k)
  {
  }

  lemma {:induction false} DropLeavesOthersAlone(s: Chain, due: Key, k: Key)
    requires k != due
    ensures LeftAlone(s, s, k) && LeftAlone(s, s.(autoRenew := s.autoRenew - {due}), k)
  {
  }

  lemma {:induction false} SwitchOffLeavesOthersAlone(s: Chain, due: Key, k: Key)
    requires k != due && due in s.subscriptions
    ensures LeftAlone(s, SetAutoRenew(s, due, false), k)
  {
  }

  lemma {:induction false} RequeueLeavesOthersAlone(s: Chain, due: Key, at: u32, k: Key)
    requires k != due && due in s.subscriptions
    ensures LeftAlone(s, Requeue(s, due, at), k)
  {
    hide SetAutoRenew;
    if Enqueue(s.queue, due, at).None? {
      SwitchOffLeavesOthersAlone(s, due, k);
    }
  }

  lemma {:induction false} RenewedLeavesOthersAlone(s: Chain, s': Chain, due: Key, k: Key)
    requires k != due && Renewed(s, s', due.who, due)
    ensures LeftAlone(s, s', k) && due in s'.subscriptions
  {
  }

  lemma {:induction false} EntryLeavesOthersAlone(s: Chain, due: Key, allow: Policy, k: Key)
    requires k != due
    ensures LeftAlone(s, RenewEntry(s, due, allow), k)
  {
    hide ExtendSubscription;
    hide Requeue;
    hide SetAutoRenew;
    hide LeftAlone;
    hide Renewed;
    DropLeavesOthersAlone(s, due, k);
    if due in s.subscriptions {
      SwitchOffLeavesOthersAlone(s, due, k);
      RequeueLeavesOthersAlone(s, due, s.subscriptions[due].expiry, k);
      var r := ExtendSubscription(s, due.who, due, Env(allow, false, false));
      if r.Ok? && due.content in s.contents {
        var at := SatAdd32(s.now, s.contents[due.content].period);
        ExtendEffect(s, due.who, due, Env(allow, false, false), r.value);
        RenewedLeavesOthersAlone(s, r.value, due, k);
        RequeueLeavesOthersAlone(r.value, due, at, k);
        LeftAloneTransitive(s, r.value, Requeue(r.value, due, at), k);
      }
    }
  }

  /** The hook charges and switches nobody but the pairs of the due bucket. */
  lemma {:induction false} HookLeavesOthersAlone(s: Chain, due: seq<Key>, allow: Policy, k: Key)
    requires k !in due
    ensures LeftAlone(s, RenewAll(s, due, allow), k)
    decreases |due|
  {
    hide RenewEntry;
    if due == [] {
    } else {
      EntryLeavesOthersAlone(s, due[0], allow, k);
      HookLeavesOthersAlone(RenewEntry(s, due[0], allow), due[1..], allow, k);
    }
  }

  // ---------- Single calls ----------

  /** The price of what a call buys, and the content it is for; None for calls that buy nothing. */
  function PriceOf(s: Chain, call: Call): Option<int>
    requires Buys(call) ==> call.content in s.contents
  {
    match call
    case Subscribe(c) => Some(s.contents[c].subscriptionPrice)
    case XcmSubscribe(c, _) => Some(s.contents[c].subscriptionPrice)
    case RenewSubscription(c) => Some(s.contents[c].subscriptionPrice)
    case XcmRenewSubscription(c, _) => Some(s.contents[c].subscriptionPrice)
    case PurchaseViews(c, n) => Some(s.contents[c].ppvPrice * n)
    case XcmPurchaseViews(c, _, n) => Some(s.contents[c].ppvPrice * n)
    case PurchaseOwnership(c) => Some(s.contents[c].ownershipPrice)
    case XcmPurchaseOwnership(c, _) => Some(s.contents[c].ownershipPrice)
    case _ => None
  }

  predicate Buys(call: Call) {
    || call.Subscribe? || call.XcmSubscribe? || call.RenewSubscription? || call.XcmRenewSubscription?
    || call.PurchaseViews? || call.XcmPurchaseViews? || call.PurchaseOwnership? || call.XcmPurchaseOwnership?
  }

  /** `payer` paid exactly `price` for the content, and everybody received exactly what the royalties owe them. */
  ghost predicate PaidExactly(s: Chain, s': Chain, payer: Account, content: u32, price: int, a: Account) {
    && content in s.contents && 0 <= price <= U128_MAX
    && BalanceOf(s'.bank, a) - BalanceOf(s.bank, a) ==
       Owed(SplitsOf(s, content), price, s.contents[content].creator, a) - Outflow(payer, price, a)
    && Issuance(s'.bank) == Issuance(s.bank)
  }

  lemma {:induction false} PayForIsExact(s: Chain, payer: Account, content: u32, amount: u128, allow: Policy, a: Account, s': Chain)
    requires Catalogued(s) && content in s.contents && PayFor(s, payer, content, amount, allow).Ok?
    requires s'.bank == PayFor(s, payer, content, amount, allow).value.bank
    ensures PaidExactly(s, s', payer, content, amount, a)
  {
    PaymentExact(s.bank, payer, s.contents[content].creator, SplitsOf(s, content), amount, allow, a);
  }

  lemma {:induction false} SubscriptionPaid(s: Chain, payer: Account, k: Key, env: Env, a: Account, s': Chain)
    requires Catalogued(s)
    requires GrantSubscription(s, payer, k, env) == Ok(s') || ExtendSubscription(s, payer, k, env) == Ok(s')
    ensures k.content in s.contents && PaidExactly(s, s', payer, k.content, s.contents[k.content].subscriptionPrice, a)
  {
    hide Pay;
    hide Catalogued;
    hide PaidExactly;
    PayForIsExact(s, payer, k.content, s.contents[k.content].subscriptionPrice, env.allow, a, s');
  }

  lemma {:induction false} OwnershipPaid(s: Chain, payer: Account, k: Key, env: Env, a: Account, s': Chain)
    requires Catalogued(s) && GrantOwnership(s, payer, k, env) == Ok(s')
    ensures k.content in s.contents && PaidExactly(s, s', payer, k.content, s.contents[k.content].ownershipPrice, a)
  {
    hide Pay;
    hide Catalogued;
    hide PaidExactly;
    PayForIsExact(s, payer, k.content, s.contents[k.content].ownershipPrice, env.allow, a, s');
  }

  lemma {:induction false} ViewsPaid(s: Chain, payer: Account, k: Key, views: u32, env: Env, a: Account, s': Chain)
    requires Catalogued(s) && GrantViews(s, payer, k, views, env) == Ok(s')
    ensures k.content in s.contents && PaidExactly(s, s', payer, k.content, s.contents[k.content].ppvPrice * views, a)
  {
    hide Pay;
    hide Catalogued;
    hide PaidExactly;
    PayForIsExact(s, payer, k.content, s.contents[k.content].ppvPrice * views, env.allow, a, s');
  }

  lemma {:induction false} CrossChainCallPaysExactly(s: Chain, who: Account, call: Call, env: Env, a: Account, s': Chain)
    requires Catalogued(s) && Apply(s, who, call, env) == Ok(s') && Buys(call) && call == AsCrossChain(who, call)
    ensures call.content in s.contents && PriceOf(s, call).Some?
    ensures PaidExactly(s, s', who, call.content, PriceOf(s, call).value, a)
  {
    hide Catalogued;
    hide PaidExactly;
    hide GrantSubscription;
    hide ExtendSubscription;
    hide GrantViews;
    hide GrantOwnership;
    var k := Key(call.content, call.beneficiary);
    if call.XcmSubscribe? || call.XcmRenewSubscription? {
      SubscriptionPaid(s, who, k, env, a, s');
    } else if call.XcmPurchaseViews? {
      ViewsPaid(s, who, k, call.views, env, a, s');
    } else {
      OwnershipPaid(s, who, k, env, a, s');
    }
  }

  lemma {:induction false} TransferIsFree(s: Chain, c: u32, src: Account, dst: Account, env: Env, s': Chain)
    requires MoveOwnership(s, c, src, dst, env) == Ok(s')
    ensures s'.bank == s.bank
  {
    MoveOwnershipEffect(s, c, src, dst, env, s');
  }

  lemma {:induction false} UseIsFree(s: Chain, k: Key, env: Env, s': Chain)
    requires UseView(s, k, env) == Ok(s')
    ensures s'.bank == s.bank
  {
  }

  lemma {:induction false} SettingsAreFree(s: Chain, who: Account, call: Call, env: Env, s': Chain)
    requires Apply(s, who, call, env) == Ok(s')
    requires call.RegisterContent? || call.SetRoyaltySplits? || call.EnableAutoRenew? || call.DisableAutoRenew? || call.SetMeter?
    ensures s'.bank == s.bank
  {
    hide GrantSubscription;
    hide ExtendSubscription;
    hide GrantViews;
    hide GrantOwnership;
    hide MoveOwnership;
    hide UseView;
    hide Enqueue;
  }

  lemma {:induction false} OtherCallsAreFree(s: Chain, who: Account, call: Call, env: Env, s': Chain)
    requires Apply(s, who, call, env) == Ok(s') && !Buys(call)
    ensures s'.bank == s.bank
  {
    hide GrantSubscription;
    hide ExtendSubscription;
    hide GrantViews;
    hide GrantOwnership;
    hide MoveOwnership;
    hide UseView;
    hide Register;
    hide EnableRenewal;
    hide DisableRenewal;
    hide ReplaceSplits;
    hide ReplaceMeter;
    match call
    case TransferOwnership(c, dst) => TransferIsFree(s, c, who, dst, env, s');
    case XcmTransferOwnership(c, src, dst) => TransferIsFree(s, c, src, dst, env, s');
    case ConsumeView(c) => UseIsFree(s, Key(c, who), env, s');
    case ConsumeViewFor(c, viewer) => UseIsFree(s, Key(c, viewer), env, s');
    case _ => SettingsAreFree(s, who, call, env, s');
  }

  /**
    In every reachable state a successful purchase, local or cross-chain, charges its signer exactly
    the price of what it buys, split by the content's royalties whatever accounts coincide, and keeps
    issuance; other calls move no money.
  */
  lemma {:induction false} CallsPayExactly(s: Chain, steps: seq<Step>, who: Account, call: Call, env: Env, a: Account)
    requires IsGenesis(s) && Apply(Run(s, steps), who, call, env).Ok?
    ensures var r := Run(s, steps);
            var r' := Apply(r, who, call, env).value;
            if Buys(call) then
              && call.content in r.contents && PriceOf(r, call).Some?
              && PaidExactly(r, r', who, call.content, PriceOf(r, call).value, a)
            else r'.bank == r.bank
  {
    hide Run;
    hide Apply;
    hide PaidExactly;
    AlwaysSound(s, steps);
    var r := Run(s, steps);
    if Buys(call) {
      LocalIsCrossChain(r, who, call, env);
      CrossChainCallPaysExactly(r, who, AsCrossChain(who, call), env, a, Apply(r, who, call, env).value);
    } else {
      OtherCallsAreFree(r, who, call, env, Apply(r, who, call, env).value);
    }
  }
}
