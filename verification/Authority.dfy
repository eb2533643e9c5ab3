/** Who can change what: rights, settings and consent to auto-renewal, over every step. */
module Authority {
  import opened Numbers
  import opened Bank
  import opened RenewalQueue
  import opened Ledger
  import opened Effects
  import opened Nesting
  import opened Runs
  import opened Theorems

  /** The hook changes neither contents, settings, packs nor ownership, and enables nobody. */
  ghost predicate HookLimits(s: Chain, s': Chain) {
    && s'.contents == s.contents && s'.splits == s.splits && s'.meters == s.meters
    && s'.viewPacks == s.viewPacks && s'.ownership == s.ownership
    && s'.autoRenew <= s.autoRenew
  }

  lemma {:induction false} RenewedWithinLimits(s: Chain, s': Chain, payer: Account, k: Key)
    requires Renewed(s, s', payer, k)
    ensures HookLimits(s, s')
  {
  }

  lemma {:induction false} SwitchOffWithinLimits(s: Chain, k: Key)
    requires k in s.subscriptions
    ensures HookLimits(s, SetAutoRenew(s, k, false))
  {
  }

  lemma {:induction false} RequeueWithinLimits(s: Chain, k: Key, at: u32)
    requires k in s.subscriptions
    ensures HookLimits(s, Requeue(s, k, at))
  {
    hide SetAutoRenew;
    if Enqueue(s.queue, k, at).None? {
      SwitchOffWithinLimits(s, k);
    }
  }

  lemma {:induction false} LimitsCompose(s: Chain, mid: Chain, s': Chain)
    requires HookLimits(s, mid) && HookLimits(mid, s')
    ensures HookLimits(s, s')
  {
  }

  lemma {:induction false} DropWithinLimits(s: Chain, k: Key)
    ensures HookLimits(s, s) && HookLimits(s, s.(autoRenew := s.autoRenew - {k}))
  {
  }

  lemma {:induction false} EntryWithinLimits(s: Chain, k: Key, allow: Policy)
    ensures HookLimits(s, RenewEntry(s, k, allow))
  {
    hide ExtendSubscription;
    hide Requeue;
    hide SetAutoRenew;
    hide HookLimits;
    hide Renewed;
    DropWithinLimits(s, k);
    if k in s.subscriptions {
      SwitchOffWithinLimits(s, k);
      RequeueWithinLimits(s, k, s.subscriptions[k].expiry);
      var r := ExtendSubscription(s, k.who, k, Env(allow, false, false));
      if r.Ok? && k.content in s.contents {
        var at := SatAdd32(s.now, s.contents[k.content].period);
        ExtendEffect(s, k.who, k, Env(allow, false, false), r.value);
        RenewedWithinLimits(s, r.value, k.who, k);
        StillSubscribed(s, r.value, k.who, k);
        RequeueWithinLimits(r.value, k, at);
        LimitsCompose(s, r.value, Requeue(r.value, k, at));
      }
    }
  }

  lemma {:induction false} StillSubscribed(s: Chain, s': Chain, payer: Account, k: Key)
    requires Renewed(s, s', payer, k)
    ensures k in s'.subscriptions
  {
  }

  lemma {:induction false} HookWithinLimits(s: Chain, due: seq<Key>, allow: Policy)
    ensures HookLimits(s, RenewAll(s, due, allow))
    decreases |due|
  {
    hide RenewEntry;
    if due == [] {
    } else {
      EntryWithinLimits(s, due[0], allow);
      HookWithinLimits(RenewEntry(s, due[0], allow), due[1..], allow);
    }
  }

  lemma {:induction false} BlockWithinLimits(s: Chain, allow: Policy)
    requires s.now < U32_MAX
    ensures HookLimits(s, NextBlock(s, allow))
  {
    HookWithinLimits(OpenBlock(s), Bucket(s.queue, s.now + 1), allow);
  }

  /** What a purchase leaves alone: contents, settings and consent. */
  ghost predicate PurchaseLimits(s: Chain, s': Chain) {
    && s'.contents == s.contents && s'.splits == s.splits && s'.meters == s.meters && s'.autoRenew == s.autoRenew
    && forall k :: StoredViews(s, k) <= StoredViews(s', k)
  }

  lemma {:induction false} PurchasesWithinLimits(s: Chain, who: Account, call: Call, env: Env, s': Chain)
    requires Apply(s, who, call, env) == Ok(s')
    requires call.XcmSubscribe? || call.XcmRenewSubscription? || call.XcmPurchaseViews? || call.XcmPurchaseOwnership?
    ensures PurchaseLimits(s, s')
  {
    hide GrantSubscription;
    hide ExtendSubscription;
    hide GrantViews;
    hide GrantOwnership;
    var k := Key(call.content, call.beneficiary);
    if call.XcmSubscribe? {
      GrantSubscriptionEffect(s, who, k, env, s');
    } else if call.XcmRenewSubscription? {
      ExtendEffect(s, who, k, env, s');
    } else if call.XcmPurchaseOwnership? {
      GrantOwnershipEffect(s, who, k, env, s');
    } else {
      GrantViewsEffect(s, who, k, call.views, env, s');
    }
  }

  /** A successful transfer moves the signer's ownership to the named account and nobody else's. */
  lemma {:induction false} TransferMovesOwnership(s: Chain, who: Account, call: Call, env: Env, s': Chain)
    requires Apply(s, who, call, env) == Ok(s') && (call.TransferOwnership? || call.XcmTransferOwnership?)
    ensures var from, into := Key(call.content, who), Key(call.content, call.dst);
            && from in s.ownership && from !in s'.ownership && into !in s.ownership && into in s'.ownership
            && (forall k :: k != from && k != into ==>
                  (k in s'.ownership <==> k in s.ownership) && (k in s.ownership ==> s'.ownership[k] == s.ownership[k]))
            && s'.subscriptions == s.subscriptions && s'.viewPacks == s.viewPacks && s'.bank == s.bank
  {
    hide MoveOwnership;
    MoveOwnershipEffect(s, call.content, who, call.dst, env, s');
  }

  /** Views of a pair are taken only by a call of the viewer, or of the content's meter for that viewer. */
  ghost predicate ViewTaken(s: Chain, who: Account, call: Call, k: Key) {
    || (call == ConsumeView(k.content) && who == k.who)
    || (call == ConsumeViewFor(k.content, k.who) && k.content in s.meters && s.meters[k.content] == who)
  }

  lemma {:induction false} UseViewTakesOne(s: Chain, k: Key, env: Env, s': Chain)
    requires UseView(s, k, env) == Ok(s')
    ensures StoredViews(s', k) == StoredViews(s, k) - 1
    ensures forall k' :: k' != k ==> StoredViews(s', k') == StoredViews(s, k')
    ensures s'.contents == s.contents && s'.splits == s.splits && s'.meters == s.meters && s'.autoRenew == s.autoRenew
  {
    hide UseView;
    UseViewEffect(s, k, env, s');
  }

  lemma {:induction false} TransferWithinLimits(s: Chain, who: Account, call: Call, env: Env, s': Chain)
    requires Apply(s, who, call, env) == Ok(s') && (call.TransferOwnership? || call.XcmTransferOwnership?)
    ensures PurchaseLimits(s, s')
  {
    hide MoveOwnership;
    MoveOwnershipEffect(s, call.content, who, call.dst, env, s');
  }

  function MeterOf(s: Chain, content: u32): Option<Account> { if content in s.meters then Some(s.meters[content]) else None }

  /**
    What a call signed by `who` may change for a pair and its content: views only as a viewer or
    meter takes them, consent only by the subscriber, splits and meter only by the creator and to
    the call's argument.
  */
  ghost predicate Authorised(s: Chain, s': Chain, who: Account, call: Call, k: Key) {
    && (StoredViews(s', k) < StoredViews(s, k) ==> ViewTaken(s, who, call, k) && StoredViews(s', k) == StoredViews(s, k) - 1)
    && (k in s'.autoRenew && k !in s.autoRenew ==> call == EnableAutoRenew(k.content) && who == k.who)
    && (SplitsOf(s', k.content) != SplitsOf(s, k.content) ==>
          k.content in s.contents && who == s.contents[k.content].creator && call == SetRoyaltySplits(k.content, SplitsOf(s', k.content)))
    && (MeterOf(s', k.content) != MeterOf(s, k.content) ==>
          k.content in s.contents && who == s.contents[k.content].creator && call == SetMeter(k.content, MeterOf(s', k.content)))
  }

  /** Every successful call is authorised, however it is made. */
  lemma {:induction false} CallAuthority(s: Chain, who: Account, call: Call, env: Env, k: Key, s': Chain)
    requires Apply(s, who, call, env) == Ok(s')
    ensures Authorised(s, s', who, call, k)
  {
    hide Apply;
    LocalIsCrossChain(s, who, call, env);
    CrossChainAuthority(s, who, AsCrossChain(who, call), env, k, s');
  }

  lemma {:induction false} LimitsAuthorise(s: Chain, s': Chain, who: Account, call: Call, k: Key)
    requires PurchaseLimits(s, s')
    ensures Authorised(s, s', who, call, k)
  {
  }

  lemma {:induction false} UseAuthorised(s: Chain, who: Account, call: Call, used: Key, env: Env, k: Key, s': Chain)
    requires UseView(s, used, env) == Ok(s') && ViewTaken(s, who, call, used)
    ensures Authorised(s, s', who, call, k)
  {
    hide UseView;
    UseViewTakesOne(s, used, env, s');
  }

  lemma {:induction false} SwitchAuthorised(s: Chain, who: Account, call: Call, env: Env, k: Key, s': Chain)
    requires Apply(s, who, call, env) == Ok(s') && (call.RegisterContent? || call.EnableAutoRenew? || call.DisableAutoRenew?)
    ensures Authorised(s, s', who, call, k)
  {
    hide GrantSubscription;
    hide ExtendSubscription;
    hide GrantViews;
    hide GrantOwnership;
    hide MoveOwnership;
    hide UseView;
    hide Enqueue;
    hide ReplaceSplits;
    hide ReplaceMeter;
  }

  lemma {:induction false} SettingAuthorised(s: Chain, who: Account, call: Call, env: Env, k: Key, s': Chain)
    requires Apply(s, who, call, env) == Ok(s') && (call.SetRoyaltySplits? || call.SetMeter?)
    ensures Authorised(s, s', who, call, k)
  {
    hide GrantSubscription;
    hide ExtendSubscription;
    hide GrantViews;
    hide GrantOwnership;
    hide MoveOwnership;
    hide UseView;
    hide Register;
    hide EnableRenewal;
    hide DisableRenewal;
  }

  lemma {:induction false} CrossChainAuthority(s: Chain, who: Account, call: Call, env: Env, k: Key, s': Chain)
    requires Apply(s, who, call, env) == Ok(s') && call == AsCrossChain(who, call)
    ensures Authorised(s, s', who, call, k)
  {
    hide Authorised;
    hide PurchaseLimits;
    hide GrantSubscription;
    hide ExtendSubscription;
    hide GrantViews;
    hide GrantOwnership;
    hide MoveOwnership;
    hide UseView;
    hide EnableRenewal;
    hide DisableRenewal;
    hide ReplaceSplits;
    hide ReplaceMeter;
    hide Register;
    if call.XcmSubscribe? || call.XcmRenewSubscription? || call.XcmPurchaseViews? || call.XcmPurchaseOwnership? {
      PurchasesWithinLimits(s, who, call, env, s');
      LimitsAuthorise(s, s', who, call, k);
    } else if call.XcmTransferOwnership? {
      TransferWithinLimits(s, who, call, env, s');
      LimitsAuthorise(s, s', who, call, k);
    } else if call.ConsumeView? {
      UseAuthorised(s, who, call, Key(call.content, who), env, k, s');
    } else if call.ConsumeViewFor? {
      UseAuthorised(s, who, call, Key(call.content, call.viewer), env, k, s');
    } else if call.SetRoyaltySplits? || call.SetMeter? {
      SettingAuthorised(s, who, call, env, k, s');
    } else {
      SwitchAuthorised(s, who, call, env, k, s');
    }
  }

  /**
    Over any step: views are taken one at a time and only by the viewer or the content's meter;
    auto-renewal is switched on only by the subscriber; royalty splits and meter of a content change
    only at its creator's call, and to that call's argument.
  */
  lemma {:induction false} StepAuthority(s: Chain, step: Step, k: Key)
    ensures var s' := Next(s, step);
            && (StoredViews(s', k) < StoredViews(s, k) ==>
                  step.Extrinsic? && ViewTaken(s, step.who, step.call, k) && StoredViews(s', k) == StoredViews(s, k) - 1)
            && (k in s'.autoRenew && k !in s.autoRenew ==>
                  step.Extrinsic? && step.call == EnableAutoRenew(k.content) && step.who == k.who)
            && (SplitsOf(s', k.content) != SplitsOf(s, k.content) ==>
                  && step.Extrinsic? && k.content in s.contents && step.who == s.contents[k.content].creator
                  && step.call == SetRoyaltySplits(k.content, SplitsOf(s', k.content)))
            && (MeterOf(s', k.content) != MeterOf(s, k.content) ==>
                  && step.Extrinsic? && k.content in s.contents && step.who == s.contents[k.content].creator
                  && step.call == SetMeter(k.content, MeterOf(s', k.content)))
  {
    hide Apply;
    if step.Extrinsic? {
      var r := Apply(s, step.who, step.call, step.env);
      if r.Ok? {
        CallAuthority(s, step.who, step.call, step.env, k, r.value);
      }
    } else if step.Block? && s.now + 1 < U32_MAX {
      BlockWithinLimits(s, step.allow);
    }
  }

  /** Nothing is known yet under the next content id, nor under the next collection. */
  ghost predicate NextIsNew(s: Chain) {
    && s.nextContent !in s.contents
    && (forall k: Key :: k.content == s.nextContent ==> k !in s.subscriptions && k !in s.viewPacks && k !in s.ownership)
    && (forall c :: c in s.contents ==> s.contents[c].collection != s.nextCollection)
    && (forall i :: i in s.parent ==> i.0 != s.nextCollection)
  }

  lemma {:induction false} SoundNextIsNew(s: Chain)
    requires Sound(s)
    ensures NextIsNew(s)
  {
    assert forall c :: c in s.contents ==> Collection(s, c) < s.nextCollection;
  }

  lemma {:induction false} RegisterEffect(s: Chain, who: Account, call: Call, env: Env, s': Chain)
    requires Apply(s, who, call, env) == Ok(s') && call.RegisterContent?
    ensures Registered(s, s', Content(who, s.nextCollection, 0, call.subscriptionPrice, call.ppvPrice, call.ownershipPrice, call.period))
  {
    hide GrantSubscription;
    hide ExtendSubscription;
    hide GrantViews;
    hide GrantOwnership;
    hide MoveOwnership;
    hide UseView;
  }

  /**
    In every reachable state a registered content is stored as its creator gave it, under an id and a
    collection that nothing uses yet, and nothing else changes but the counters: it starts without
    subscribers, view packs, owners and nested items, and no money moves.
  */
  lemma {:induction false} RegistrationStores(s: Chain, steps: seq<Step>, who: Account, call: Call, env: Env)
    requires IsGenesis(s) && call.RegisterContent? && Apply(Run(s, steps), who, call, env).Ok?
    ensures var r := Run(s, steps);
            var r' := Apply(r, who, call, env).value;
            var content := Content(who, r.nextCollection, 0, call.subscriptionPrice, call.ppvPrice, call.ownershipPrice, call.period);
            && NextIsNew(r)
            && r' == r.(contents := r.contents[r.nextContent := content], nextContent := r.nextContent + 1,
                        nextCollection := r.nextCollection + 1, nextItem := r.nextItem[r.nextCollection := 1])
            && NextIsNew(r')
  {
    hide Run;
    hide Apply;
    hide Sound;
    hide NextIsNew;
    AlwaysSound(s, steps);
    var r := Run(s, steps);
    var r' := Apply(r, who, call, env).value;
    RegisterEffect(r, who, call, env, r');
    CallSound(r, who, call, env, r');
    SoundNextIsNew(r);
    SoundNextIsNew(r');
  }

  /** Once registered, a content's creator, prices and period never change. */
  lemma {:induction false} ContentsNeverChange(s: Chain, steps: seq<Step>, n: nat, c: u32)
    requires IsGenesis(s) && n <= |steps| && c in Run(s, steps[..n]).contents
    ensures c in Run(s, steps).contents && Run(s, steps).contents[c] == Run(s, steps[..n]).contents[c]
    decreases |steps|
  {
    hide Next;
    if n == |steps| {
      assert steps[..n] == steps;
    } else {
      var before := steps[..|steps| - 1];
      assert before[..n] == steps[..n];
      ContentsNeverChange(s, before, n, c);
      AlwaysSound(s, before);
      StepKeepsContent(Run(s, before), steps[|steps| - 1], c);
    }
  }

  lemma {:induction false} StepKeepsContent(s: Chain, step: Step, c: u32)
    requires Sound(s) && c in s.contents
    ensures c in Next(s, step).contents && Next(s, step).contents[c] == s.contents[c]
  {
    hide Apply;
    hide Sound;
    if step.Extrinsic? {
      var r := Apply(s, step.who, step.call, step.env);
      if r.Ok? {
        CallKeepsContent(s, step.who, step.call, step.env, r.value, c);
      }
    } else if step.Block? && s.now + 1 < U32_MAX {
      BlockWithinLimits(s, step.allow);
    }
  }

  lemma {:induction false} CallKeepsContent(s: Chain, who: Account, call: Call, env: Env, s': Chain, c: u32)
    requires Sound(s) && Apply(s, who, call, env) == Ok(s') && c in s.contents
    ensures c in s'.contents && s'.contents[c] == s.contents[c]
  {
    hide Apply;
    hide Sound;
    if call.EnableAutoRenew? || call.DisableAutoRenew? {
      SwitchEffect(s, who, call, env, s');
    } else {
      CallSound(s, who, call, env, s');
    }
  }
}
