/** The invariants of the rights chain hold in every reachable state; what follows from them. */
module Runs {
  import opened Numbers
  import opened Bank
  import opened RenewalQueue
  import opened Ledger
  import opened Effects
  import opened Scheduler
  import opened Rights
  import opened Nesting
  import opened Owners

  ghost predicate Sound(s: Chain) { Recorded(s) && Nested(s) && OwnersCounted(s) }

  lemma {:induction false} RegisteredSound(s: Chain, s': Chain, content: Content)
    requires Sound(s) && Registered(s, s', content)
    ensures Sound(s') && Quiet(s, s')
  {
    RegisteredIsQuiet(s, s', content);
    RegisteredRecorded(s, s', content);
    RegisteredItems(s, s', content);
    RegisteredCollections(s, s', content);
    OtherSales(s, s');
  }

  lemma {:induction false} SubscribedSound(s: Chain, s': Chain, payer: Account, k: Key)
    requires Sound(s) && Subscribed(s, s', payer, k)
    ensures Sound(s') && Quiet(s, s')
  {
    SubscribedIsQuiet(s, s', payer, k);
    SubscribedRecorded(s, s', payer, k);
    SubscribedRecord(s, s', payer, k);
    RecordAddedNested(s, s', SubscriptionOf(k));
    SubscribedSales(s, s', payer, k);
  }

  lemma {:induction false} RenewedSound(s: Chain, s': Chain, payer: Account, k: Key)
    requires Sound(s) && Renewed(s, s', payer, k)
    ensures Sound(s') && Quiet(s, s')
  {
    RenewedIsQuiet(s, s', payer, k);
    RenewedRecorded(s, s', payer, k);
    RenewedRecords(s, s', payer, k);
    SameRecordsNested(s, s');
    OtherSales(s, s');
  }

  lemma {:induction false} PackGrownSound(s: Chain, s': Chain, k: Key, views: u32)
    requires Sound(s) && PackGrown(s, s', k, views)
    ensures Sound(s') && Quiet(s, s')
  {
    PackGrownIsQuiet(s, s', k, views);
    PackChangeRecorded(s, s', k, views);
    PackCountRecords(s, s', k, views);
    SameRecordsNested(s, s');
    OtherSales(s, s');
  }

  lemma {:induction false} PackStartedSound(s: Chain, s': Chain, k: Key, views: u32)
    requires Sound(s) && PackStarted(s, s', k, views)
    ensures Sound(s') && Quiet(s, s')
  {
    PackStartedIsQuiet(s, s', k, views);
    PackStartedRecorded(s, s', k, views);
    PackStartedRecord(s, s', k, views);
    RecordAddedNested(s, s', PackOf(k));
    PackStartedSales(s, s', k, views);
  }

  lemma {:induction false} PackReducedSound(s: Chain, s': Chain, k: Key)
    requires Sound(s) && PackReduced(s, s', k)
    ensures Sound(s') && Quiet(s, s')
  {
    PackReducedIsQuiet(s, s', k);
    PackChangeRecorded(s, s', k, 0);
    PackCountRecords(s, s', k, 0);
    SameRecordsNested(s, s');
    OtherSales(s, s');
  }

  lemma {:induction false} PackFinishedSound(s: Chain, s': Chain, k: Key)
    requires Sound(s) && PackFinished(s, s', k)
    ensures Sound(s') && Quiet(s, s')
  {
    PackFinishedIsQuiet(s, s', k);
    PackChangeRecorded(s, s', k, 0);
    PackFinishedRecord(s, s', k);
    RecordRemovedNested(s, s', PackOf(k));
    OtherSales(s, s');
  }

  lemma {:induction false} OwnershipSoldSound(s: Chain, s': Chain, k: Key)
    requires Sound(s) && OwnershipSold(s, s', k)
    ensures Sound(s') && Quiet(s, s')
  {
    OwnershipSoldIsQuiet(s, s', k);
    OwnershipSoldRecorded(s, s', k);
    OwnershipSoldRecord(s, s', k);
    RecordAddedNested(s, s', OwnershipOf(k));
    SaleAddsOwner(s, s', k);
  }

  lemma {:induction false} OwnershipPassedSound(s: Chain, s': Chain, c: u32, src: Account, dst: Account)
    requires Sound(s) && OwnershipPassed(s, s', c, src, dst)
    ensures Sound(s') && Quiet(s, s')
  {
    OwnershipPassedIsQuiet(s, s', c, src, dst);
    OwnershipPassedRecorded(s, s', c, src, dst);
    WithoutOwnerRecord(s, Key(c, src));
    RecordRemovedNested(s, WithoutOwner(s, Key(c, src)), OwnershipOf(Key(c, src)));
    OwnershipPassedRecord(s, s', c, src, dst);
    RecordAddedNested(WithoutOwner(s, Key(c, src)), s', OwnershipOf(Key(c, dst)));
    TransferKeepsCount(s, s', c, src, dst);
  }

  lemma {:induction false} BackgroundSound(s: Chain, s': Chain, k: Key, on: bool)
    requires Sound(s) && (Background(s, s') || Switched(s, s', k, on))
    ensures Sound(s')
  {
    ScheduleRecorded(s, s', k, on);
    ScheduleRecords(s, s', k, on);
    SameRecordsNested(s, s');
    OtherSales(s, s');
  }

  /** The cross-chain form of a local call signed by `who`; other calls are unchanged. */
  function AsCrossChain(who: Account, call: Call): Call {
    match call
    case Subscribe(c) => XcmSubscribe(c, who)
    case RenewSubscription(c) => XcmRenewSubscription(c, who)
    case PurchaseViews(c, n) => XcmPurchaseViews(c, who, n)
    case PurchaseOwnership(c) => XcmPurchaseOwnership(c, who)
    case TransferOwnership(c, dst) => XcmTransferOwnership(c, who, dst)
    case _ => call
  }

  lemma {:induction false} LocalIsCrossChain(s: Chain, who: Account, call: Call, env: Env)
    ensures Apply(s, who, call, env) == Apply(s, who, AsCrossChain(who, call), env)
  {
    hide GrantSubscription;
    hide ExtendSubscription;
    hide GrantViews;
    hide GrantOwnership;
    hide MoveOwnership;
    hide UseView;
  }

  lemma {:induction false} PurchaseSound(s: Chain, who: Account, call: Call, env: Env, s': Chain)
    requires Sound(s) && Apply(s, who, call, env) == Ok(s')
    requires call.XcmSubscribe? || call.XcmRenewSubscription? || call.XcmPurchaseViews? || call.XcmPurchaseOwnership?
    ensures Sound(s') && Quiet(s, s')
  {
    var k := Key(call.content, call.beneficiary);
    if call.XcmSubscribe? {
      GrantSubscriptionEffect(s, who, k, env, s');
      SubscribedSound(s, s', who, k);
    } else if call.XcmRenewSubscription? {
      ExtendEffect(s, who, k, env, s');
      RenewedSound(s, s', who, k);
    } else if call.XcmPurchaseViews? {
      GrantViewsEffect(s, who, k, call.views, env, s');
      if k in s.viewPacks {
        PackGrownSound(s, s', k, call.views);
      } else {
        PackStartedSound(s, s', k, call.views);
      }
    } else {
      GrantOwnershipEffect(s, who, k, env, s');
      OwnershipSoldSound(s, s', k);
    }
  }

  lemma {:induction false} UseViewSound(s: Chain, k: Key, env: Env, s': Chain)
    requires Sound(s) && UseView(s, k, env) == Ok(s')
    ensures Sound(s') && Quiet(s, s')
  {
    UseViewEffect(s, k, env, s');
    if s.viewPacks[k].views == 1 {
      PackFinishedSound(s, s', k);
    } else {
      PackReducedSound(s, s', k);
    }
  }

  lemma {:induction false} ConfigureEffect(s: Chain, who: Account, call: Call, env: Env, s': Chain)
    requires Apply(s, who, call, env) == Ok(s') && (call.SetRoyaltySplits? || call.SetMeter?)
    ensures Background(s, s')
    ensures s'.now == s.now && s'.queue == s.queue && s'.autoRenew == s.autoRenew
  {
    hide GrantSubscription;
    hide ExtendSubscription;
    hide GrantViews;
    hide GrantOwnership;
    hide MoveOwnership;
    hide UseView;
  }

  lemma {:induction false} ConfigureSound(s: Chain, who: Account, call: Call, env: Env, s': Chain)
    requires Sound(s) && Apply(s, who, call, env) == Ok(s')
    requires call.SetRoyaltySplits? || call.SetMeter?
    ensures Sound(s') && Quiet(s, s')
  {
    hide Apply;
    ConfigureEffect(s, who, call, env, s');
    BackgroundSound(s, s', Key(0, who), false);
  }

  lemma {:induction false} SwitchEffect(s: Chain, who: Account, call: Call, env: Env, s': Chain)
    requires Apply(s, who, call, env) == Ok(s') && (call.EnableAutoRenew? || call.DisableAutoRenew?)
    ensures Switched(s, s', Key(call.content, who), call.EnableAutoRenew?)
  {
    hide GrantSubscription;
    hide ExtendSubscription;
    hide GrantViews;
    hide GrantOwnership;
    hide MoveOwnership;
    hide UseView;
  }

  lemma {:induction false} SwitchSound(s: Chain, who: Account, call: Call, env: Env, s': Chain)
    requires Sound(s) && Apply(s, who, call, env) == Ok(s')
    requires call.EnableAutoRenew? || call.DisableAutoRenew?
    ensures Sound(s')
  {
    hide Apply;
    SwitchEffect(s, who, call, env, s');
    BackgroundSound(s, s', Key(call.content, who), call.EnableAutoRenew?);
  }

  lemma {:induction false} CrossChainSound(s: Chain, who: Account, call: Call, env: Env, s': Chain)
    requires Sound(s) && Apply(s, who, call, env) == Ok(s') && call == AsCrossChain(who, call)
    ensures Sound(s')
    ensures call.EnableAutoRenew? || call.DisableAutoRenew? || Quiet(s, s')
  {
    if call.RegisterContent? {
      RegisteredSound(s, s', Content(who, s.nextCollection, 0, call.subscriptionPrice, call.ppvPrice, call.ownershipPrice, call.period));
    } else if call.ConsumeView? {
      UseViewSound(s, Key(call.content, who), env, s');
    } else if call.ConsumeViewFor? {
      UseViewSound(s, Key(call.content, call.viewer), env, s');
    } else if call.XcmTransferOwnership? {
      MoveOwnershipEffect(s, call.content, call.src, call.dst, env, s');
      OwnershipPassedSound(s, s', call.content, call.src, call.dst);
    } else if call.SetRoyaltySplits? || call.SetMeter? {
      ConfigureSound(s, who, call, env, s');
    } else if call.EnableAutoRenew? || call.DisableAutoRenew? {
      SwitchSound(s, who, call, env, s');
    } else {
      PurchaseSound(s, who, call, env, s');
    }
  }

  lemma {:induction false} CallSound(s: Chain, who: Account, call: Call, env: Env, s': Chain)
    requires Sound(s) && Apply(s, who, call, env) == Ok(s')
    ensures Sound(s')
    ensures call.EnableAutoRenew? || call.DisableAutoRenew? || Quiet(s, s')
  {
    hide Apply;
    hide Sound;
    hide Quiet;
    LocalIsCrossChain(s, who, call, env);
    CrossChainSound(s, who, AsCrossChain(who, call), env, s');
  }

  lemma {:induction false} EntrySound(s: Chain, k: Key, allow: Policy)
    requires Sound(s)
    ensures Sound(RenewEntry(s, k, allow))
  {
    hide RenewEntry;
    hide Sound;
    hide Renewed;
    hide Background;
    hide Switched;
    var mid := EntryEffects(s, k, allow);
    if mid != s {
      RenewedSound(s, mid, k.who, k);
    }
    BackgroundSound(mid, RenewEntry(s, k, allow), k, false);
  }

  lemma {:induction false} RenewAllSound(s: Chain, due: seq<Key>, allow: Policy)
    requires Sound(s)
    ensures Sound(RenewAll(s, due, allow))
    decreases |due|
  {
    hide RenewEntry;
    hide Sound;
    if due == [] {
    } else {
      EntrySound(s, due[0], allow);
      RenewAllSound(RenewEntry(s, due[0], allow), due[1..], allow);
    }
  }

  lemma {:induction false} CallKeepsConsistent(s: Chain, who: Account, call: Call, env: Env, s': Chain)
    requires Sound(s) && Consistent(s, []) && Apply(s, who, call, env) == Ok(s')
    ensures Consistent(s', [])
  {
    if call.EnableAutoRenew? {
      EnableKeepsConsistent(s, Key(call.content, who));
    } else if call.DisableAutoRenew? {
      SwitchOff(s, Key(call.content, who), []);
    } else {
      CallSound(s, who, call, env, s');
      QuietKeepsConsistent(s, s', []);
    }
  }

  lemma {:induction false} OpenBlockSound(s: Chain)
    requires Sound(s) && s.now + 1 < U32_MAX
    ensures Sound(OpenBlock(s))
  {
    assert Background(s, OpenBlock(s));
    BackgroundSound(s, OpenBlock(s), Key(0, Account([])), false);
  }

  lemma {:induction false} BlockKeepsConsistent(s: Chain, allow: Policy)
    requires Consistent(s, []) && s.now + 1 < U32_MAX
    ensures Consistent(NextBlock(s, allow), [])
  {
    hide Consistent;
    hide RenewAll;
    var due := Bucket(s.queue, s.now + 1);
    OpenBlockKeepsConsistent(s);
    RenewAllKeepsConsistent(OpenBlock(s), due, |due|, allow);
    assert due[..|due|] == due && due[|due|..] == [];
  }

  lemma {:induction false} BlockSound(s: Chain, allow: Policy)
    requires Sound(s) && s.now + 1 < U32_MAX
    ensures Sound(NextBlock(s, allow))
  {
    OpenBlockSound(s);
    RenewAllSound(OpenBlock(s), Bucket(s.queue, s.now + 1), allow);
  }

  lemma {:induction false} OutsideKeeps(s: Chain, bank: Balances, nextCollection: u32)
    requires Sound(s) && Consistent(s, []) && s.nextCollection <= nextCollection
    ensures var s' := s.(bank := bank, nextCollection := nextCollection); Sound(s') && Consistent(s', [])
  {
    var s' := s.(bank := bank, nextCollection := nextCollection);
    assert Background(s, s');
    BackgroundSound(s, s', Key(0, Account([])), false);
    QuietKeepsConsistent(s, s', []);
  }

  lemma {:induction false} NextKeeps(s: Chain, step: Step)
    requires Sound(s) && Consistent(s, [])
    ensures Sound(Next(s, step)) && Consistent(Next(s, step), [])
  {
    hide Apply;
    hide Sound;
    hide Consistent;
    hide NextBlock;
    match step
    case Extrinsic(who, call, env) =>
      if Apply(s, who, call, env).Ok? {
        CallSound(s, who, call, env, Next(s, step));
        CallKeepsConsistent(s, who, call, env, Next(s, step));
      }
    case Block(allow) =>
      if s.now + 1 < U32_MAX {
        BlockSound(s, allow);
        BlockKeepsConsistent(s, allow);
      }
    case Outside(bank, nextCollection) =>
      OutsideKeeps(s, bank, Max(s.nextCollection, nextCollection));
  }

  lemma {:induction false} GenesisSound(s: Chain)
    requires IsGenesis(s)
    ensures Sound(s) && Consistent(s, [])
  {
    assert forall c: u32 :: OwnersOf(s.ownership, c) == {};
    assert forall r :: !Held(s, r);
    assert OneToOne(Items(s), s.parent);
  }

  /** Every reachable state is sound and its scheduler consistent. */
  lemma {:induction false} AlwaysSound(s: Chain, steps: seq<Step>)
    requires IsGenesis(s)
    ensures Sound(Run(s, steps)) && Consistent(Run(s, steps), [])
    decreases |steps|
  {
    if steps == [] {
      GenesisSound(s);
    } else {
      AlwaysSound(s, steps[..|steps| - 1]);
      NextKeeps(Run(s, steps[..|steps| - 1]), steps[|steps| - 1]);
    }
  }
}
