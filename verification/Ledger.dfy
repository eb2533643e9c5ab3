/**
  The rights chain as a value: its storage, what each extrinsic and the block hook do to it, and
  runs of them. The imperative pallet is proved to compute exactly these functions.
*/
module Ledger {
  import opened Numbers
  import opened Bank
  import opened Royalties
  import opened RenewalQueue

  datatype Content = Content(
    creator: Account, collection: u32, item: u32,
    subscriptionPrice: u128, ppvPrice: u128, ownershipPrice: u128, period: u32)

  datatype Subscription = Subscription(expiry: u32, autoRenew: bool, child: u32)

  datatype ViewPack = ViewPack(views: u32, child: u32)

  datatype RightsType = SubscriptionRight | PayPerViewRight | OwnershipRight

  /** What the pallet reports as events, with the block in which it happened where that matters. */
  datatype Event =
    | Charged(key: Key, payer: Account, at: u32)
    | ViewsBought(key: Key, views: u32)
    | ViewUsed(key: Key)
    | OwnershipBought(key: Key)
    | OwnershipMoved(content: u32, src: Account, dst: Account)
    | AutoRenewOn(key: Key, at: u32)
    | AutoRenewOff(key: Key)
    | Minted(collection: u32, item: u32)

  datatype History = Genesis | Then(past: History, last: Event)

  datatype Chain = Chain(
    minPeriod: u32,
    now: u32,
    nextContent: u32,
    nextCollection: u32,
    nextItem: map<u32, u32>,
    contents: map<u32, Content>,
    subscriptions: map<Key, Subscription>,
    viewPacks: map<Key, ViewPack>,
    ownership: map<Key, u32>,
    autoRenew: set<Key>,
    queue: Queue,
    splits: map<u32, seq<Split>>,
    parent: map<(u32, u32), (u32, u32)>,
    meters: map<u32, Account>,
    bank: Balances,
    log: History)

  /** Decisions of the currency and of the NFT pallet during one step. */
  datatype Env = Env(allow: Policy, mint: bool, burn: bool)

  function Find<K, V>(m: map<K, V>, k: K, missing: Error): Result<V> {
    if k in m then Ok(m[k]) else Err(missing)
  }

  function SplitsOf(s: Chain, content: u32): seq<Split> { if content in s.splits then s.splits[content] else [] }

  function ItemCounter(s: Chain, collection: u32): u32 {
    if collection in s.nextItem then s.nextItem[collection] else 0
  }

  function PayFor(s: Chain, payer: Account, content: u32, amount: u128, allow: Policy): Result<Chain>
    requires content in s.contents
  {
    var bank :- Pay(s.bank, payer, s.contents[content].creator, SplitsOf(s, content), amount, allow);
    Ok(s.(bank := bank))
  }

  /** The next child item of a content's collection is minted and nested under the content item. */
  function Nest(s: Chain, content: Content): Chain
    requires ItemCounter(s, content.collection) < U32_MAX
  {
    var child := ItemCounter(s, content.collection);
    s.(parent := s.parent[(content.collection, child) := (content.collection, content.item)],
       nextItem := s.nextItem[content.collection := child + 1],
       log := Then(s.log, Minted(content.collection, child)))
  }

  function MintChild(s: Chain, content: Content, env: Env): Result<Chain> {
    if ItemCounter(s, content.collection) == U32_MAX then Err(ItemIdOverflow)
    else if !env.mint then Err(NftFailed)
    else Ok(Nest(s, content))
  }

  function BurnChild(s: Chain, collection: u32, child: u32, env: Env): Result<Chain> {
    if !env.burn then Err(NftFailed) else Ok(s.(parent := s.parent - {(collection, child)}))
  }

  function Register(s: Chain, creator: Account, subscriptionPrice: u128, ppvPrice: u128, ownershipPrice: u128, period: u32, env: Env)
    : Result<Chain>
  {
    if s.nextContent == U32_MAX || s.nextCollection == U32_MAX then Err(ContentIdOverflow)
    else if !env.mint then Err(NftFailed)
    else
      var content := Content(creator, s.nextCollection, 0, subscriptionPrice, ppvPrice, ownershipPrice, period);
      Ok(s.(contents := s.contents[s.nextContent := content],
            nextContent := s.nextContent + 1,
            nextCollection := s.nextCollection + 1,
            nextItem := s.nextItem[s.nextCollection := 1]))
  }

  function GrantSubscription(s: Chain, payer: Account, k: Key, env: Env): Result<Chain> {
    var content :- Find(s.contents, k.content, ContentNotFound);
    if k in s.subscriptions then Err(SubscriptionAlreadyExists)
    else
      var child := ItemCounter(s, content.collection);
      var paid :- PayFor(s, payer, k.content, content.subscriptionPrice, env.allow);
      var minted :- MintChild(paid, content, env);
      Ok(minted.(subscriptions := s.subscriptions[k := Subscription(SatAdd32(s.now, content.period), false, child)],
                 log := Then(minted.log, Charged(k, payer, s.now))))
  }

  function ExtendSubscription(s: Chain, payer: Account, k: Key, env: Env): Result<Chain> {
    var content :- Find(s.contents, k.content, ContentNotFound);
    var sub :- Find(s.subscriptions, k, SubscriptionNotFound);
    if s.now < sub.expiry then Err(SubscriptionNotExpired)
    else
      var paid :- PayFor(s, payer, k.content, content.subscriptionPrice, env.allow);
      Ok(paid.(subscriptions := s.subscriptions[k := sub.(expiry := SatAdd32(s.now, content.period))],
               log := Then(s.log, Charged(k, payer, s.now))))
  }

  function GrantViews(s: Chain, payer: Account, k: Key, views: u32, env: Env): Result<Chain> {
    if views == 0 then Err(ZeroViews)
    else
      var content :- Find(s.contents, k.content, ContentNotFound);
      if content.ppvPrice * views > U128_MAX then Err(InsufficientPayment)
      else
        var paid :- PayFor(s, payer, k.content, content.ppvPrice * views, env.allow);
        if k in s.viewPacks then
          var pack := s.viewPacks[k];
          Ok(paid.(viewPacks := s.viewPacks[k := pack.(views := SatAdd32(pack.views, views))],
                   log := Then(s.log, ViewsBought(k, views))))
        else
          var child := ItemCounter(s, content.collection);
          var minted :- MintChild(paid, content, env);
          Ok(minted.(viewPacks := s.viewPacks[k := ViewPack(views, child)],
                     log := Then(minted.log, ViewsBought(k, views))))
  }

  function UseView(s: Chain, k: Key, env: Env): Result<Chain> {
    var pack :- Find(s.viewPacks, k, ViewPackNotFound);
    if pack.views == 0 then Err(NoViewsRemaining)
    else if pack.views > 1 then
      Ok(s.(viewPacks := s.viewPacks[k := pack.(views := pack.views - 1)], log := Then(s.log, ViewUsed(k))))
    else
      var content :- Find(s.contents, k.content, ContentNotFound);
      var burnt :- BurnChild(s, content.collection, pack.child, env);
      Ok(burnt.(viewPacks := s.viewPacks - {k}, log := Then(s.log, ViewUsed(k))))
  }

  function GrantOwnership(s: Chain, payer: Account, k: Key, env: Env): Result<Chain> {
    var content :- Find(s.contents, k.content, ContentNotFound);
    if k in s.ownership then Err(AlreadyOwned)
    else
      var child := ItemCounter(s, content.collection);
      var paid :- PayFor(s, payer, k.content, content.ownershipPrice, env.allow);
      var minted :- MintChild(paid, content, env);
      Ok(minted.(ownership := s.ownership[k := child], log := Then(minted.log, OwnershipBought(k))))
  }

  function MoveOwnership(s: Chain, c: u32, src: Account, dst: Account, env: Env): Result<Chain> {
    var content :- Find(s.contents, c, ContentNotFound);
    var oldChild :- Find(s.ownership, Key(c, src), OwnershipNotFound);
    if Key(c, dst) in s.ownership then Err(AlreadyOwned)
    else
      var child := ItemCounter(s, content.collection);
      var burnt :- BurnChild(s, content.collection, oldChild, env);
      var minted :- MintChild(burnt, content, env);
      Ok(minted.(ownership := (s.ownership - {Key(c, src)})[Key(c, dst) := child],
                 log := Then(minted.log, OwnershipMoved(c, src, dst))))
  }

  function SetAutoRenew(s: Chain, k: Key, on: bool): Chain
    requires k in s.subscriptions
  {
    s.(subscriptions := s.subscriptions[k := s.subscriptions[k].(autoRenew := on)],
       autoRenew := if on then s.autoRenew + {k} else s.autoRenew - {k},
       log := Then(s.log, if on then AutoRenewOn(k, s.now) else AutoRenewOff(k)))
  }

  function EnableRenewal(s: Chain, k: Key): Result<Chain> {
    var content :- Find(s.contents, k.content, ContentNotFound);
    if content.period < s.minPeriod then Err(AutoRenewPeriodTooShort)
    else
      var sub :- Find(s.subscriptions, k, SubscriptionNotFound);
      if sub.autoRenew then Err(AutoRenewAlreadyEnabled)
      else
        match Enqueue(s.queue, k, Max(sub.expiry, SatAdd32(s.now, 1)))
        case None => Err(RenewalQueueFull)
        case Some(q) => Ok(SetAutoRenew(s, k, true).(queue := q))
  }

  function DisableRenewal(s: Chain, k: Key): Result<Chain> {
    var sub :- Find(s.subscriptions, k, SubscriptionNotFound);
    if !sub.autoRenew then Err(AutoRenewNotEnabled) else Ok(SetAutoRenew(s, k, false))
  }

  function ReplaceSplits(s: Chain, caller: Account, c: u32, splits: seq<Split>): Result<Chain> {
    var content :- Find(s.contents, c, ContentNotFound);
    if caller != content.creator then Err(NotContentCreator)
    else if !SplitsOk(splits) then Err(InvalidRoyaltySplits)
    else Ok(s.(splits := s.splits[c := splits]))
  }

  function ReplaceMeter(s: Chain, caller: Account, c: u32, meter: Option<Account>): Result<Chain> {
    var content :- Find(s.contents, c, ContentNotFound);
    if caller != content.creator then Err(NotContentCreator)
    else Ok(s.(meters := if meter.Some? then s.meters[c := meter.value] else s.meters - {c}))
  }

  datatype Call =
    | RegisterContent(subscriptionPrice: u128, ppvPrice: u128, ownershipPrice: u128, period: u32)
    | Subscribe(content: u32)
    | RenewSubscription(content: u32)
    | PurchaseViews(content: u32, views: u32)
    | ConsumeView(content: u32)
    | PurchaseOwnership(content: u32)
    | XcmSubscribe(content: u32, beneficiary: Account)
    | XcmRenewSubscription(content: u32, beneficiary: Account)
    | XcmPurchaseViews(content: u32, beneficiary: Account, views: u32)
    | XcmPurchaseOwnership(content: u32, beneficiary: Account)
    | TransferOwnership(content: u32, dst: Account)
    | XcmTransferOwnership(content: u32, src: Account, dst: Account)
    | SetRoyaltySplits(content: u32, splits: seq<Split>)
    | EnableAutoRenew(content: u32)
    | DisableAutoRenew(content: u32)
    | SetMeter(content: u32, meter: Option<Account>)
    | ConsumeViewFor(content: u32, viewer: Account)

  /** The result of an extrinsic signed by `who`. */
  function Apply(s: Chain, who: Account, call: Call, env: Env): Result<Chain> {
    match call
    case RegisterContent(sp, pp, op, period) => Register(s, who, sp, pp, op, period, env)
    case Subscribe(c) => GrantSubscription(s, who, Key(c, who), env)
    case RenewSubscription(c) => ExtendSubscription(s, who, Key(c, who), env)
    case PurchaseViews(c, n) => GrantViews(s, who, Key(c, who), n, env)
    case ConsumeView(c) => UseView(s, Key(c, who), env)
    case PurchaseOwnership(c) => GrantOwnership(s, who, Key(c, who), env)
    case XcmSubscribe(c, b) => GrantSubscription(s, who, Key(c, b), env)
    case XcmRenewSubscription(c, b) => ExtendSubscription(s, who, Key(c, b), env)
    case XcmPurchaseViews(c, b, n) => GrantViews(s, who, Key(c, b), n, env)
    case XcmPurchaseOwnership(c, b) => GrantOwnership(s, who, Key(c, b), env)
    case TransferOwnership(c, dst) => MoveOwnership(s, c, who, dst, env)
    case XcmTransferOwnership(c, src, dst) => if who != src then Err(Unauthorized) else MoveOwnership(s, c, src, dst, env)
    case SetRoyaltySplits(c, splits) => ReplaceSplits(s, who, c, splits)
    case EnableAutoRenew(c) => EnableRenewal(s, Key(c, who))
    case DisableAutoRenew(c) => DisableRenewal(s, Key(c, who))
    case SetMeter(c, meter) => ReplaceMeter(s, who, c, meter)
    case ConsumeViewFor(c, viewer) =>
      if c in s.meters && s.meters[c] == who then UseView(s, Key(c, viewer), env) else Err(Unauthorized)
  }

  /** A dispatched extrinsic: a failing one leaves storage unchanged. */
  function Dispatch(s: Chain, who: Account, call: Call, env: Env): Chain {
    match Apply(s, who, call, env)
    case Ok(s') => s'
    case Err(_) => s
  }

  /** Queue the next renewal of a pair, or give auto-renewal up when no slot is free. */
  function Requeue(s: Chain, k: Key, at: u32): Chain
    requires k in s.subscriptions
  {
    match Enqueue(s.queue, k, at)
    case Some(q) => s.(queue := q)
    case None => SetAutoRenew(s, k, false)
  }

  /** The hook's treatment of one due entry. */
  function RenewEntry(s: Chain, k: Key, allow: Policy): Chain {
    if k !in s.autoRenew then s
    else if k !in s.subscriptions || !s.subscriptions[k].autoRenew then s.(autoRenew := s.autoRenew - {k})
    else
      var sub := s.subscriptions[k];
      if s.now < sub.expiry then Requeue(s, k, sub.expiry)
      else if k.content !in s.contents then SetAutoRenew(s, k, false)
      else
        match ExtendSubscription(s, k.who, k, Env(allow, false, false))
        case Ok(renewed) => Requeue(renewed, k, SatAdd32(s.now, s.contents[k.content].period))
        case Err(_) => SetAutoRenew(s, k, false)
  }

  function RenewAll(s: Chain, due: seq<Key>, allow: Policy): Chain
    decreases |due|
  {
    if due == [] then s else RenewAll(RenewEntry(s, due[0], allow), due[1..], allow)
  }

  /** The next block has begun and its bucket has been taken off the queue. */
  function OpenBlock(s: Chain): Chain
    requires s.now < U32_MAX
  {
    s.(now := s.now + 1, queue := s.queue - {s.now + 1})
  }

  function NextBlock(s: Chain, allow: Policy): Chain
    requires s.now < U32_MAX
  {
    RenewAll(OpenBlock(s), Bucket(s.queue, s.now + 1), allow)
  }

  /** `Outside` is any activity of other pallets: balances change, NFT collections are created. */
  datatype Step =
    | Extrinsic(who: Account, call: Call, env: Env)
    | Block(allow: Policy)
    | Outside(bank: Balances, nextCollection: u32)

  /** One step. Block numbers stay below u32::MAX; the NFT collection counter never goes down. */
  function Next(s: Chain, step: Step): Chain {
    match step
    case Extrinsic(who, call, env) => Dispatch(s, who, call, env)
    case Block(allow) => if s.now + 1 < U32_MAX then NextBlock(s, allow) else s
    case Outside(bank, nextCollection) =>
      s.(bank := bank, nextCollection := Max(s.nextCollection, nextCollection))
  }

  function Run(s: Chain, steps: seq<Step>): Chain
    decreases |steps|
  {
    if steps == [] then s else Next(Run(s, steps[..|steps| - 1]), steps[|steps| - 1])
  }

  /** The storage of a fresh chain, with any balances. */
  predicate IsGenesis(s: Chain) {
    && 1 <= s.minPeriod
    && s.now == 0 && s.nextContent == 0
    && s.nextItem == map[] && s.contents == map[] && s.subscriptions == map[] && s.viewPacks == map[]
    && s.ownership == map[] && s.autoRenew == {} && s.queue == map[] && s.splits == map[] && s.parent == map[]
    && s.meters == map[] && s.log == Genesis
  }

  /** The right through which an account can access a content, by priority. */
  function AccessRights(s: Chain, k: Key): Option<RightsType> {
    if k in s.ownership then Some(OwnershipRight)
    else if k in s.subscriptions && s.now < s.subscriptions[k].expiry then Some(SubscriptionRight)
    else if k in s.viewPacks && s.viewPacks[k].views > 0 then Some(PayPerViewRight)
    else None
  }

  function AccessRightsOf(s: Chain, k: Key): Option<RightsType> {
    if k.content in s.contents then AccessRights(s, k) else None
  }
}
