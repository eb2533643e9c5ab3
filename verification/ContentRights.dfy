/**
  The content-rights pallet in its own form: storage maps updated in place by extrinsics and by the
  block hook. Every method is proved to compute the functions of `Ledger`.
*/
module ContentRights {
  import opened Numbers
  import Bank
  import opened Royalties
  import opened RenewalQueue
  import Ledger
  import Effects
  import Runs

  type Account = Bank.Account
  type Env = Ledger.Env
  type Chain = Ledger.Chain
  type Content = Ledger.Content

  /** A call's result and the state it left agree with the expected outcome; a failure says nothing of the state. */
  predicate Outcome<T>(r: Result<T>, after: Chain, expected: Result<Chain>) {
    match expected
    case Ok(s) => r.Ok? && after == s
    case Err(e) => r.Err? && r.error == e
  }

  class Pallet {
    const minPeriod: u32
    var now: u32
    var nextContent: u32
    var nextCollection: u32
    var nextItem: map<u32, u32>
    var contents: map<u32, Content>
    var subscriptions: map<Key, Ledger.Subscription>
    var viewPacks: map<Key, Ledger.ViewPack>
    var ownership: map<Key, u32>
    var autoRenew: set<Key>
    var queue: Queue
    var splits: map<u32, seq<Split>>
    var parent: map<(u32, u32), (u32, u32)>
    var meters: map<u32, Account>
    var bank: Bank.Balances
    var log: Ledger.History

    /** Split transfers attempted and queue buckets read since genesis. */
    ghost var splitTransfers: nat
    ghost var bucketReads: nat

    function State(): Chain
      reads this
    {
      Ledger.Chain(minPeriod, now, nextContent, nextCollection, nextItem, contents, subscriptions, viewPacks, ownership,
                   autoRenew, queue, splits, parent, meters, bank, log)
    }

    ghost predicate Valid()
      reads this
    {
      WithinBounds(State())
    }

    constructor (minPeriod: u32, bank: Bank.Balances)
      requires 1 <= minPeriod
      ensures Valid() && Ledger.IsGenesis(State())
    {
      this.minPeriod := minPeriod;
      this.bank := bank;
      now, nextContent, nextCollection := 0, 0, 0;
      nextItem, contents, subscriptions, viewPacks := map[], map[], map[], map[];
      ownership, autoRenew, queue, splits := map[], {}, map[], map[];
      parent, meters, log := map[], map[], Ledger.Genesis;
    }

    method RestoreCatalog(saved: Chain)
      modifies this`now, this`nextContent, this`nextCollection, this`nextItem, this`contents, this`splits, this`meters
      ensures now == saved.now && nextContent == saved.nextContent && nextCollection == saved.nextCollection
      ensures nextItem == saved.nextItem && contents == saved.contents && splits == saved.splits && meters == saved.meters
    {
      now, nextContent, nextCollection := saved.now, saved.nextContent, saved.nextCollection;
      nextItem, contents, splits, meters := saved.nextItem, saved.contents, saved.splits, saved.meters;
    }

    method RestoreRights(saved: Chain)
      modifies this`subscriptions, this`viewPacks, this`ownership, this`autoRenew, this`queue, this`parent, this`bank, this`log
      ensures subscriptions == saved.subscriptions && viewPacks == saved.viewPacks && ownership == saved.ownership
      ensures autoRenew == saved.autoRenew && queue == saved.queue && parent == saved.parent
      ensures bank == saved.bank && log == saved.log
    {
      subscriptions, viewPacks, ownership := saved.subscriptions, saved.viewPacks, saved.ownership;
      autoRenew, queue, parent, bank, log := saved.autoRenew, saved.queue, saved.parent, saved.bank, saved.log;
    }

    /** Put storage back to a snapshot, as a storage layer that is rolled back does. */
    method Restore(saved: Chain)
      requires saved.minPeriod == minPeriod
      modifies this
      ensures State() == saved
    {
      RestoreCatalog(saved);
      RestoreRights(saved);
    }

    method Deposit(e: Ledger.Event)
      modifies this`log
      ensures log == Ledger.Then(old(log), e)
    {
      log := Ledger.Then(log, e);
    }

    // ---------- Helpers ----------

    method TransferAmount(src: Account, dst: Account, amount: u128, allow: Bank.Policy) returns (r: Result<()>)
      modifies this`bank
      ensures match Bank.TransferAmount(old(bank), src, dst, amount, allow)
              case Ok(b) => r == Ok(()) && bank == b
              case Err(e) => r == Err(e) && bank == old(bank)
    {
      if Bank.BalanceOf(bank, src) < amount || !allow(bank, src, dst, amount) {
        return Err(TransferFailed);
      }
      if src != dst {
        bank := bank[src := Bank.BalanceOf(bank, src) - amount][dst := Bank.BalanceOf(bank, dst) + amount];
      }
      return Ok(());
    }

    /**
      Pay `amount` from `src`, split by the content's royalties; the creator gets the remainder. A
      failure may leave some transfers done: the caller rolls them back.
    */
    method PayWithRoyalties(src: Account, creator: Account, content: u32, amount: u128, allow: Bank.Policy) returns (r: Result<u32>)
      requires Valid()
      modifies this`bank, this`splitTransfers
      ensures match Pay(old(bank), src, creator, Ledger.SplitsOf(State(), content), amount, allow)
              case Ok(b) => r == Ok(|Ledger.SplitsOf(State(), content)|) && bank == b
              case Err(e) => r == Err(e)
      ensures old(splitTransfers) <= splitTransfers <= old(splitTransfers) + |Ledger.SplitsOf(State(), content)|
    {
      hide Bank.TransferAmount;
      hide SatMul128;
      var parts := if content in splits then splits[content] else [];
      var numSplits: u32 := |parts|;
      if parts == [] {
        var _ :- TransferAmount(src, creator, amount, allow);
      } else {
        var distributed: u128 := 0;
        NeverOverdistributed(parts, amount);
        assert parts[0..] == parts;
        for i := 0 to |parts|
          invariant PaySplits(old(bank), src, parts, amount, allow) == PaySplits(bank, src, parts[i..], amount, allow)
          invariant distributed + Distributed(parts[i..], amount) == Distributed(parts, amount)
          invariant old(splitTransfers) <= splitTransfers <= old(splitTransfers) + i
        {
          assert parts[i..][0] == parts[i] && parts[i..][1..] == parts[i + 1..];
          var share := SatMul128(amount, parts[i].points) / BASIS_POINTS;
          if share > 0 {
            splitTransfers := splitTransfers + 1;
            var _ :- TransferAmount(src, parts[i].recipient, share, allow);
            distributed := distributed + share;
          }
        }
        var remainder := if distributed <= amount then amount - distributed else 0;
        if remainder > 0 {
          var _ :- TransferAmount(src, creator, remainder, allow);
        }
      }
      return Ok(numSplits);
    }

    method PayFor(payer: Account, content: u32, amount: u128, allow: Bank.Policy) returns (r: Result<u32>)
      requires Valid() && content in contents
      modifies this`bank, this`splitTransfers
      ensures Outcome(r, State(), Ledger.PayFor(old(State()), payer, content, amount, allow))
      ensures r.Ok? ==> r.value <= MAX_ROYALTY_SPLITS && splitTransfers <= old(splitTransfers) + r.value
      ensures old(splitTransfers) <= splitTransfers <= old(splitTransfers) + MAX_ROYALTY_SPLITS
    {
      hide Pay;
      r := PayWithRoyalties(payer, contents[content].creator, content, amount, allow);
    }

    /** Queue a renewal at the first block from `at` whose bucket has room; returns the offset. */
    method EnqueueRenewal(k: Key, at: u32) returns (r: Result<u32>)
      requires Valid()
      modifies this`queue, this`bucketReads
      ensures Valid()
      ensures match Slot(old(queue), k, at)
              case Some(b) => at <= b && r == Ok(b - at) && queue == Place(old(queue), k, b)
              case None => r == Err(RenewalQueueFull) && queue == old(queue)
      ensures bucketReads <= old(bucketReads) + MAX_RENEWAL_SLOT_SEARCH
    {
      for offset := 0 to MAX_RENEWAL_SLOT_SEARCH
        invariant queue == old(queue)
        invariant forall b: u32 :: at <= b < at + offset ==> !Accepts(queue, k, b)
        invariant bucketReads <= old(bucketReads) + offset
      {
        var block := SatAdd32(at, offset);
        bucketReads := bucketReads + 1;
        var bucket := if block in queue then queue[block] else [];
        if k in bucket || |bucket| < MAX_RENEWALS_PER_BLOCK {
          SearchStopsInRange(queue, k, at, offset);
          FirstFitIsUnique(queue, k, at, at + offset);
          if k !in bucket {
            queue := queue[block := bucket + [k]];
          }
          return Ok(offset);
        }
      }
      SlotMeaning(queue, k, at);
      return Err(RenewalQueueFull);
    }

    /** Switch auto-renewal off for a pair and report it. */
    method StopAutoRenew(k: Key)
      modifies this`subscriptions, this`autoRenew, this`log
      ensures k in old(subscriptions) ==> State() == Ledger.SetAutoRenew(old(State()), k, false)
      ensures k !in old(subscriptions) ==>
                State() == old(State()).(autoRenew := old(autoRenew) - {k}, log := Ledger.Then(old(log), Ledger.AutoRenewOff(k)))
    {
      if k in subscriptions {
        subscriptions := subscriptions[k := subscriptions[k].(autoRenew := false)];
      }
      autoRenew := autoRenew - {k};
      Deposit(Ledger.AutoRenewOff(k));
    }

    method MintAndNestChild(content: Content, env: Env) returns (r: Result<u32>)
      modifies this`parent, this`nextItem, this`log
      ensures Outcome(r, State(), Ledger.MintChild(old(State()), content, env))
      ensures r.Ok? ==> r.value == Ledger.ItemCounter(old(State()), content.collection)
    {
      var child := if content.collection in nextItem then nextItem[content.collection] else 0;
      if child == U32_MAX {
        return Err(ItemIdOverflow);
      }
      if !env.mint {
        return Err(NftFailed);
      }
      parent := parent[(content.collection, child) := (content.collection, content.item)];
      nextItem := nextItem[content.collection := child + 1];
      Deposit(Ledger.Minted(content.collection, child));
      return Ok(child);
    }

    method BurnChild(collection: u32, child: u32, env: Env) returns (r: Result<()>)
      modifies this`parent
      ensures Outcome(r, State(), Ledger.BurnChild(old(State()), collection, child, env))
    {
      if !env.burn {
        return Err(NftFailed);
      }
      parent := parent - {(collection, child)};
      return Ok(());
    }

    // ---------- Block hook ----------

    /** Queue the pair at `at`, or give auto-renewal up when no slot is free. */
    method RequeueOrStop(k: Key, at: u32)
      requires Valid() && k in subscriptions
      modifies this`queue, this`bucketReads, this`subscriptions, this`autoRenew, this`log
      ensures Valid() && State() == Ledger.Requeue(old(State()), k, at)
      ensures bucketReads <= old(bucketReads) + MAX_RENEWAL_SLOT_SEARCH
    {
      var r := EnqueueRenewal(k, at);
      if r.Err? {
        StopAutoRenew(k);
      }
    }

    /**
      Charge an expired subscription in a storage layer of its own: either the whole payment is made
      and the subscription extended, or nothing has changed, even if some splits were already paid.
    */
    method ChargeInLayer(k: Key, allow: Bank.Policy) returns (paid: Result<u32>)
      requires Valid() && k in subscriptions && subscriptions[k].expiry <= now && k.content in contents
      modifies this`bank, this`subscriptions, this`log, this`splitTransfers
      ensures match Ledger.ExtendSubscription(old(State()), k.who, k, Ledger.Env(allow, false, false))
              case Ok(s) => paid.Ok? && State() == s
              case Err(e) => paid == Err(e) && State() == old(State())
      ensures old(splitTransfers) <= splitTransfers <= old(splitTransfers) + MAX_ROYALTY_SPLITS
      ensures paid.Ok? ==> splitTransfers <= old(splitTransfers) + paid.value && paid.value <= MAX_ROYALTY_SPLITS
    {
      hide WithinBounds;
      hide Ledger.PayFor;
      var content := contents[k.content];
      var saved := bank;
      paid := PayFor(k.who, k.content, content.subscriptionPrice, allow);
      if paid.Ok? {
        var newExpiry := SatAdd32(now, content.period);
        subscriptions := subscriptions[k := subscriptions[k].(expiry := newExpiry)];
        Deposit(Ledger.Charged(k, k.who, now));
      } else {
        bank := saved;
      }
    }

    /** A due entry whose subscription has expired: charge it and queue its next renewal. */
    method ChargeAndRequeue(k: Key, allow: Bank.Policy) returns (splitPayments: u32)
      requires Valid() && k in autoRenew && k in subscriptions && subscriptions[k].autoRenew
      requires subscriptions[k].expiry <= now && k.content in contents
      modifies this
      ensures Valid() && State() == Ledger.RenewEntry(old(State()), k, allow)
      ensures old(splitTransfers) <= splitTransfers <= old(splitTransfers) + splitPayments
      ensures splitPayments <= MAX_ROYALTY_SPLITS
      ensures bucketReads <= old(bucketReads) + MAX_RENEWAL_SLOT_SEARCH
    {
      hide Ledger.Requeue;
      hide Ledger.SetAutoRenew;
      var newExpiry := SatAdd32(now, contents[k.content].period);
      var paid := ChargeInLayer(k, allow);
      if paid.Ok? {
        splitPayments := paid.value;
        RequeueOrStop(k, newExpiry);
      } else {
        splitPayments := MAX_ROYALTY_SPLITS;
        StopAutoRenew(k);
      }
    }

    method ProcessEntry(k: Key, allow: Bank.Policy) returns (splitPayments: u32)
      requires Valid()
      modifies this
      ensures Valid() && State() == Ledger.RenewEntry(old(State()), k, allow)
      ensures old(splitTransfers) <= splitTransfers <= old(splitTransfers) + splitPayments
      ensures splitPayments <= MAX_ROYALTY_SPLITS
      ensures bucketReads <= old(bucketReads) + MAX_RENEWAL_SLOT_SEARCH
    {
      hide Ledger.ExtendSubscription;
      hide Ledger.Requeue;
      hide Ledger.SetAutoRenew;
      splitPayments := 0;
      if k !in autoRenew {
        return;
      }
      if k !in subscriptions || !subscriptions[k].autoRenew {
        autoRenew := autoRenew - {k};
        return;
      }
      var sub := subscriptions[k];
      if now < sub.expiry {
        RequeueOrStop(k, sub.expiry);
        return;
      }
      if k.content !in contents {
        StopAutoRenew(k);
        return;
      }
      splitPayments := ChargeAndRequeue(k, allow);
    }

    /**
      Process the renewals due at the current block. The returned counts are what the hook's weight
      is computed from: at most 10 entries, at most 100 split payments, never fewer than the split
      transfers attempted, and at most 100 buckets searched per entry.
    */
    method OnInitialize(allow: Bank.Policy) returns (processed: u32, splitPayments: u32)
      requires Valid()
      modifies this
      ensures Valid()
      ensures State() == Ledger.RenewAll(old(State()).(queue := old(queue) - {old(now)}), Bucket(old(queue), old(now)), allow)
      ensures processed == |Bucket(old(queue), old(now))| <= MAX_RENEWALS_PER_BLOCK
      ensures splitTransfers - old(splitTransfers) <= splitPayments <= MAX_ROYALTY_SPLITS * processed
      ensures bucketReads - old(bucketReads) <= MAX_RENEWAL_SLOT_SEARCH * processed
    {
      var due := if now in queue then queue[now] else [];
      queue := queue - {now};
      processed := |due|;
      splitPayments := 0;
      ghost var start := State();
      assert due[0..] == due;
      for i := 0 to |due|
        invariant Valid()
        invariant Ledger.RenewAll(start, due, allow) == Ledger.RenewAll(State(), due[i..], allow)
        invariant splitTransfers - old(splitTransfers) <= splitPayments <= MAX_ROYALTY_SPLITS * i
        invariant bucketReads - old(bucketReads) <= MAX_RENEWAL_SLOT_SEARCH * i
      {
        assert due[i..][0] == due[i] && due[i..][1..] == due[i + 1..];
        var p := ProcessEntry(due[i], allow);
        splitPayments := SatAdd32(splitPayments, p);
      }
    }

    /** A new block: the block number rises by one and the hook runs. */
    method BeginBlock(allow: Bank.Policy) returns (processed: u32, splitPayments: u32)
      requires Valid() && now + 1 < U32_MAX
      modifies this
      ensures Valid() && State() == Ledger.NextBlock(old(State()), allow)
      ensures processed <= MAX_RENEWALS_PER_BLOCK && splitPayments <= MAX_ROYALTY_SPLITS * MAX_RENEWALS_PER_BLOCK
    {
      now := now + 1;
      processed, splitPayments := OnInitialize(allow);
    }

    // ---------- Extrinsics ----------

    method RegisterContent(creator: Account, subscriptionPrice: u128, ppvPrice: u128, ownershipPrice: u128, period: u32, env: Env)
      returns (r: Result<u32>)
      modifies this
      ensures Outcome(r, State(), Ledger.Register(old(State()), creator, subscriptionPrice, ppvPrice, ownershipPrice, period, env))
    {
      var content := nextContent;
      if content == U32_MAX {
        return Err(ContentIdOverflow);
      }
      var collection := nextCollection;
      if collection == U32_MAX {
        return Err(ContentIdOverflow);
      }
      nextCollection := collection + 1;
      if !env.mint {
        return Err(NftFailed);
      }
      contents := contents[content := Ledger.Content(creator, collection, 0, subscriptionPrice, ppvPrice, ownershipPrice, period)];
      nextContent := content + 1;
      nextItem := nextItem[collection := 1];
      return Ok(content);
    }

    /** Store a subscription of one period from now and report its first charge. */
    method StoreSubscription(k: Key, payer: Account, period: u32, child: u32)
      modifies this`subscriptions, this`log
      ensures subscriptions == old(subscriptions)[k := Ledger.Subscription(SatAdd32(now, period), false, child)]
      ensures log == Ledger.Then(old(log), Ledger.Charged(k, payer, now))
    {
      subscriptions := subscriptions[k := Ledger.Subscription(SatAdd32(now, period), false, child)];
      Deposit(Ledger.Charged(k, payer, now));
    }

    method Subscribe(subscriber: Account, content: u32, env: Env) returns (r: Result<u32>)
      requires Valid()
      modifies this
      ensures Outcome(r, State(), Ledger.GrantSubscription(old(State()), subscriber, Key(content, subscriber), env))
    {
      hide WithinBounds;
      hide Ledger.PayFor;
      hide Ledger.MintChild;
      hide SatAdd32;
      if content !in contents {
        return Err(ContentNotFound);
      }
      var c := contents[content];
      if Key(content, subscriber) in subscriptions {
        return Err(SubscriptionAlreadyExists);
      }
      var numSplits :- PayFor(subscriber, content, c.subscriptionPrice, env.allow);
      var child :- MintAndNestChild(c, env);
      StoreSubscription(Key(content, subscriber), subscriber, c.period, child);
      return Ok(numSplits);
    }

    method RenewSubscription(subscriber: Account, content: u32, env: Env) returns (r: Result<u32>)
      requires Valid()
      modifies this
      ensures Outcome(r, State(), Ledger.ExtendSubscription(old(State()), subscriber, Key(content, subscriber), env))
    {
      hide WithinBounds;
      hide Ledger.PayFor;
      if content !in contents {
        return Err(ContentNotFound);
      }
      var c := contents[content];
      if Key(content, subscriber) !in subscriptions {
        return Err(SubscriptionNotFound);
      }
      var sub := subscriptions[Key(content, subscriber)];
      if now < sub.expiry {
        return Err(SubscriptionNotExpired);
      }
      var numSplits :- PayFor(subscriber, content, c.subscriptionPrice, env.allow);
      subscriptions := subscriptions[Key(content, subscriber) := sub.(expiry := SatAdd32(now, c.period))];
      Deposit(Ledger.Charged(Key(content, subscriber), subscriber, now));
      return Ok(numSplits);
    }

    method XcmSubscribe(payer: Account, content: u32, beneficiary: Account, env: Env) returns (r: Result<u32>)
      requires Valid()
      modifies this
      ensures Outcome(r, State(), Ledger.GrantSubscription(old(State()), payer, Key(content, beneficiary), env))
    {
      hide WithinBounds;
      hide Ledger.PayFor;
      hide Ledger.MintChild;
      hide SatAdd32;
      if content !in contents {
        return Err(ContentNotFound);
      }
      var c := contents[content];
      if Key(content, beneficiary) in subscriptions {
        return Err(SubscriptionAlreadyExists);
      }
      var numSplits :- PayFor(payer, content, c.subscriptionPrice, env.allow);
      var child :- MintAndNestChild(c, env);
      StoreSubscription(Key(content, beneficiary), payer, c.period, child);
      return Ok(numSplits);
    }

    method XcmRenewSubscription(payer: Account, content: u32, beneficiary: Account, env: Env) returns (r: Result<u32>)
      requires Valid()
      modifies this
      ensures Outcome(r, State(), Ledger.ExtendSubscription(old(State()), payer, Key(content, beneficiary), env))
    {
      hide WithinBounds;
      hide Ledger.PayFor;
      if content !in contents {
        return Err(ContentNotFound);
      }
      var c := contents[content];
      if Key(content, beneficiary) !in subscriptions {
        return Err(SubscriptionNotFound);
      }
      var sub := subscriptions[Key(content, beneficiary)];
      if now < sub.expiry {
        return Err(SubscriptionNotExpired);
      }
      var numSplits :- PayFor(payer, content, c.subscriptionPrice, env.allow);
      subscriptions := subscriptions[Key(content, beneficiary) := sub.(expiry := SatAdd32(now, c.period))];
      Deposit(Ledger.Charged(Key(content, beneficiary), payer, now));
      return Ok(numSplits);
    }

    /** Shared by `PurchaseViews` and `XcmPurchaseViews`: adds to an existing pack or starts one. */
    method DoPurchaseViews(payer: Account, beneficiary: Account, content: u32, views: u32, env: Env) returns (r: Result<u32>)
      requires Valid()
      modifies this
      ensures Outcome(r, State(), Ledger.GrantViews(old(State()), payer, Key(content, beneficiary), views, env))
    {
      hide WithinBounds;
      hide Ledger.PayFor;
      hide Ledger.MintChild;
      if views == 0 {
        return Err(ZeroViews);
      }
      if content !in contents {
        return Err(ContentNotFound);
      }
      var c := contents[content];
      var price := c.ppvPrice * views;
      if price > U128_MAX {
        return Err(InsufficientPayment);
      }
      var k := Key(content, beneficiary);
      var numSplits :- PayFor(payer, content, price, env.allow);
      if k in viewPacks {
        viewPacks := viewPacks[k := viewPacks[k].(views := SatAdd32(viewPacks[k].views, views))];
      } else {
        var child :- MintAndNestChild(c, env);
        viewPacks := viewPacks[k := Ledger.ViewPack(views, child)];
      }
      Deposit(Ledger.ViewsBought(k, views));
      return Ok(numSplits);
    }

    /** Shared by `ConsumeView` and `ConsumeViewFor`: takes one view and burns the item with the last. */
    method DoConsumeView(content: u32, viewer: Account, env: Env) returns (r: Result<()>)
      modifies this
      ensures Outcome(r, State(), Ledger.UseView(old(State()), Key(content, viewer), env))
    {
      hide Ledger.BurnChild;
      var k := Key(content, viewer);
      if k !in viewPacks {
        return Err(ViewPackNotFound);
      }
      var pack := viewPacks[k];
      if pack.views == 0 {
        return Err(NoViewsRemaining);
      }
      pack := pack.(views := pack.views - 1);
      if pack.views == 0 {
        if content !in contents {
          return Err(ContentNotFound);
        }
        var _ :- BurnChild(contents[content].collection, pack.child, env);
        viewPacks := viewPacks - {k};
      } else {
        viewPacks := viewPacks[k := pack];
      }
      Deposit(Ledger.ViewUsed(k));
      return Ok(());
    }

    method ConsumeViewFor(caller: Account, content: u32, viewer: Account, env: Env) returns (r: Result<()>)
      modifies this
      ensures Outcome(r, State(), Ledger.Apply(old(State()), caller, Ledger.ConsumeViewFor(content, viewer), env))
    {
      hide Ledger.UseView;
      if content !in meters || meters[content] != caller {
        return Err(Unauthorized);
      }
      r := DoConsumeView(content, viewer, env);
    }

    method PurchaseOwnership(buyer: Account, content: u32, env: Env) returns (r: Result<u32>)
      requires Valid()
      modifies this
      ensures Outcome(r, State(), Ledger.GrantOwnership(old(State()), buyer, Key(content, buyer), env))
    {
      hide WithinBounds;
      hide Ledger.PayFor;
      hide Ledger.MintChild;
      if content !in contents {
        return Err(ContentNotFound);
      }
      var c := contents[content];
      if Key(content, buyer) in ownership {
        return Err(AlreadyOwned);
      }
      var numSplits :- PayFor(buyer, content, c.ownershipPrice, env.allow);
      var child :- MintAndNestChild(c, env);
      ownership := ownership[Key(content, buyer) := child];
      Deposit(Ledger.OwnershipBought(Key(content, buyer)));
      return Ok(numSplits);
    }

    method XcmPurchaseOwnership(payer: Account, content: u32, beneficiary: Account, env: Env) returns (r: Result<u32>)
      requires Valid()
      modifies this
      ensures Outcome(r, State(), Ledger.GrantOwnership(old(State()), payer, Key(content, beneficiary), env))
    {
      hide WithinBounds;
      hide Ledger.PayFor;
      hide Ledger.MintChild;
      if content !in contents {
        return Err(ContentNotFound);
      }
      var c := contents[content];
      if Key(content, beneficiary) in ownership {
        return Err(AlreadyOwned);
      }
      var numSplits :- PayFor(payer, content, c.ownershipPrice, env.allow);
      var child :- MintAndNestChild(c, env);
      ownership := ownership[Key(content, beneficiary) := child];
      Deposit(Ledger.OwnershipBought(Key(content, beneficiary)));
      return Ok(numSplits);
    }

    method MoveRecord(content: u32, src: Account, dst: Account, child: u32)
      modifies this`ownership, this`log
      ensures ownership == (old(ownership) - {Key(content, src)})[Key(content, dst) := child]
      ensures log == Ledger.Then(old(log), Ledger.OwnershipMoved(content, src, dst))
    {
      ownership := ownership - {Key(content, src)};
      ownership := ownership[Key(content, dst) := child];
      Deposit(Ledger.OwnershipMoved(content, src, dst));
    }

    method TransferOwnership(src: Account, content: u32, dst: Account, env: Env) returns (r: Result<()>)
      modifies this
      ensures Outcome(r, State(), Ledger.MoveOwnership(old(State()), content, src, dst, env))
    {
      hide Ledger.MintChild;
      if content !in contents {
        return Err(ContentNotFound);
      }
      var c := contents[content];
      if Key(content, src) !in ownership {
        return Err(OwnershipNotFound);
      }
      if Key(content, dst) in ownership {
        return Err(AlreadyOwned);
      }
      var _ :- BurnChild(c.collection, ownership[Key(content, src)], env);
      var child :- MintAndNestChild(c, env);
      MoveRecord(content, src, dst, child);
      return Ok(());
    }

    method XcmTransferOwnership(authorizer: Account, content: u32, src: Account, dst: Account, env: Env) returns (r: Result<()>)
      modifies this
      ensures Outcome(r, State(), Ledger.Apply(old(State()), authorizer, Ledger.XcmTransferOwnership(content, src, dst), env))
    {
      hide Ledger.MoveOwnership;
      if authorizer != src {
        return Err(Unauthorized);
      }
      r := TransferOwnership(src, content, dst, env);
    }

    method SetFlag(k: Key)
      requires Valid() && k in subscriptions
      modifies this`subscriptions, this`autoRenew
      ensures Valid()
      ensures subscriptions == old(subscriptions)[k := old(subscriptions)[k].(autoRenew := true)]
      ensures autoRenew == old(autoRenew) + {k}
    {
      subscriptions := subscriptions[k := subscriptions[k].(autoRenew := true)];
      autoRenew := autoRenew + {k};
    }

    /** Set the flag, enter the pair in the index and queue it at its expiry, or in the next block. */
    method SwitchOn(k: Key) returns (r: Result<()>)
      requires Valid() && k in subscriptions
      modifies this`subscriptions, this`autoRenew, this`queue, this`bucketReads, this`log
      ensures match Enqueue(old(queue), k, Max(old(subscriptions)[k].expiry, SatAdd32(now, 1)))
              case Some(q) => r.Ok? && State() == Ledger.SetAutoRenew(old(State()), k, true).(queue := q)
              case None => r == Err(RenewalQueueFull)
    {
      hide WithinBounds;
      hide Place;
      hide Slot;
      var expiry := subscriptions[k].expiry;
      SetFlag(k);
      var _ :- EnqueueRenewal(k, Max(expiry, SatAdd32(now, 1)));
      Deposit(Ledger.AutoRenewOn(k, now));
      return Ok(());
    }

    method EnableAutoRenew(subscriber: Account, content: u32) returns (r: Result<()>)
      requires Valid()
      modifies this
      ensures Outcome(r, State(), Ledger.EnableRenewal(old(State()), Key(content, subscriber)))
    {
      hide Enqueue;
      hide Ledger.SetAutoRenew;
      var k := Key(content, subscriber);
      if content !in contents {
        return Err(ContentNotFound);
      }
      if contents[content].period < minPeriod {
        return Err(AutoRenewPeriodTooShort);
      }
      if k !in subscriptions {
        return Err(SubscriptionNotFound);
      }
      if subscriptions[k].autoRenew {
        return Err(AutoRenewAlreadyEnabled);
      }
      r := SwitchOn(k);
    }

    method DisableAutoRenew(subscriber: Account, content: u32) returns (r: Result<()>)
      modifies this
      ensures Outcome(r, State(), Ledger.DisableRenewal(old(State()), Key(content, subscriber)))
    {
      var k := Key(content, subscriber);
      if k !in subscriptions {
        return Err(SubscriptionNotFound);
      }
      if !subscriptions[k].autoRenew {
        return Err(AutoRenewNotEnabled);
      }
      subscriptions := subscriptions[k := subscriptions[k].(autoRenew := false)];
      autoRenew := autoRenew - {k};
      Deposit(Ledger.AutoRenewOff(k));
      return Ok(());
    }

    method SetRoyaltySplits(caller: Account, content: u32, parts: seq<Split>) returns (r: Result<()>)
      modifies this
      ensures Outcome(r, State(), Ledger.ReplaceSplits(old(State()), caller, content, parts))
    {
      if content !in contents {
        return Err(ContentNotFound);
      }
      if caller != contents[content].creator {
        return Err(NotContentCreator);
      }
      // The argument's type bounds the list; a longer one cannot be decoded.
      if |parts| > MAX_ROYALTY_SPLITS {
        return Err(InvalidRoyaltySplits);
      }
      var ok := ValidateSplits(parts);
      if !ok {
        return Err(InvalidRoyaltySplits);
      }
      splits := splits[content := parts];
      return Ok(());
    }

    method SetMeter(caller: Account, content: u32, meter: Option<Account>) returns (r: Result<()>)
      modifies this
      ensures Outcome(r, State(), Ledger.ReplaceMeter(old(State()), caller, content, meter))
    {
      if content !in contents {
        return Err(ContentNotFound);
      }
      if caller != contents[content].creator {
        return Err(NotContentCreator);
      }
      match meter {
        case Some(m) => meters := meters[content := m];
        case None => meters := meters - {content};
      }
      return Ok(());
    }

    /** The cross-chain extrinsics, in which the payer and the beneficiary may differ. */
    method DispatchCrossChain(who: Account, call: Ledger.Call, env: Env) returns (r: Result<()>)
      requires Valid() && (call.XcmSubscribe? || call.XcmRenewSubscription? || call.XcmPurchaseViews? || call.XcmPurchaseOwnership?)
      modifies this
      ensures Outcome(r, State(), Ledger.Apply(old(State()), who, call, env))
    {
      hide Ledger.GrantSubscription;
      hide Ledger.ExtendSubscription;
      hide Ledger.GrantViews;
      hide Ledger.GrantOwnership;
      if call.XcmSubscribe? {
        var _ :- XcmSubscribe(who, call.content, call.beneficiary, env);
      } else if call.XcmRenewSubscription? {
        var _ :- XcmRenewSubscription(who, call.content, call.beneficiary, env);
      } else if call.XcmPurchaseViews? {
        var _ :- DoPurchaseViews(who, call.beneficiary, call.content, call.views, env);
      } else {
        var _ :- XcmPurchaseOwnership(who, call.content, call.beneficiary, env);
      }
      return Ok(());
    }

    /** The extrinsics by which the signer acquires a right. */
    method DispatchPurchase(who: Account, call: Ledger.Call, env: Env) returns (r: Result<()>)
      requires Valid() && (call.Subscribe? || call.RenewSubscription? || call.PurchaseViews? || call.PurchaseOwnership?)
      modifies this
      ensures Outcome(r, State(), Ledger.Apply(old(State()), who, call, env))
    {
      hide Ledger.GrantSubscription;
      hide Ledger.ExtendSubscription;
      hide Ledger.GrantViews;
      hide Ledger.GrantOwnership;
      if call.Subscribe? {
        var _ :- Subscribe(who, call.content, env);
      } else if call.RenewSubscription? {
        var _ :- RenewSubscription(who, call.content, env);
      } else if call.PurchaseViews? {
        var _ :- DoPurchaseViews(who, who, call.content, call.views, env);
      } else {
        var _ :- PurchaseOwnership(who, call.content, env);
      }
      return Ok(());
    }

    /** The remaining extrinsics: registration, use and transfer of rights, and settings. */
    method DispatchOther(who: Account, call: Ledger.Call, env: Env) returns (r: Result<()>)
      requires Valid()
      requires !(call.XcmSubscribe? || call.XcmRenewSubscription? || call.XcmPurchaseViews? || call.XcmPurchaseOwnership?)
      requires !(call.Subscribe? || call.RenewSubscription? || call.PurchaseViews? || call.PurchaseOwnership?)
      modifies this
      ensures Outcome(r, State(), Ledger.Apply(old(State()), who, call, env))
    {
      hide Ledger.Register;
      hide Ledger.UseView;
      hide Ledger.MoveOwnership;
      hide Ledger.ReplaceSplits;
      hide Ledger.ReplaceMeter;
      hide Ledger.EnableRenewal;
      hide Ledger.DisableRenewal;
      match call {
        case RegisterContent(sp, pp, op, period) => var _ :- RegisterContent(who, sp, pp, op, period, env);
        case ConsumeView(c) => var _ :- DoConsumeView(c, who, env);
        case ConsumeViewFor(c, viewer) => var _ :- ConsumeViewFor(who, c, viewer, env);
        case TransferOwnership(c, dst) => var _ :- TransferOwnership(who, c, dst, env);
        case XcmTransferOwnership(c, src, dst) => var _ :- XcmTransferOwnership(who, c, src, dst, env);
        case SetRoyaltySplits(c, parts) => var _ :- SetRoyaltySplits(who, c, parts);
        case EnableAutoRenew(c) => var _ :- EnableAutoRenew(who, c);
        case DisableAutoRenew(c) => var _ :- DisableAutoRenew(who, c);
        case SetMeter(c, meter) => var _ :- SetMeter(who, c, meter);
      }
      return Ok(());
    }

    /** Dispatch a signed extrinsic in a storage layer: a failure puts storage back as it was. */
    method Dispatch(who: Account, call: Ledger.Call, env: Env) returns (r: Result<()>)
      requires Valid()
      modifies this
      ensures Valid() && State() == Ledger.Dispatch(old(State()), who, call, env)
      ensures match Ledger.Apply(old(State()), who, call, env)
              case Ok(_) => r.Ok?
              case Err(e) => r == Err(e)
    {
      hide Ledger.Apply;
      var saved := State();
      if call.XcmSubscribe? || call.XcmRenewSubscription? || call.XcmPurchaseViews? || call.XcmPurchaseOwnership? {
        r := DispatchCrossChain(who, call, env);
      } else if call.Subscribe? || call.RenewSubscription? || call.PurchaseViews? || call.PurchaseOwnership? {
        r := DispatchPurchase(who, call, env);
      } else {
        r := DispatchOther(who, call, env);
      }
      if r.Err? {
        Restore(saved);
      } else {
        Runs.LocalIsCrossChain(saved, who, call, env);
        ApplyKeepsBounds(saved, who, Runs.AsCrossChain(who, call), env, State());
      }
    }
  }

  /** A bucket that accepts the pair is reached before the search saturates. */
  lemma {:induction false} SearchStopsInRange(q: Queue, k: Key, at: u32, offset: u32)
    requires Accepts(q, k, SatAdd32(at, offset)) && offset < MAX_RENEWAL_SLOT_SEARCH
    requires forall b: u32 :: at <= b < at + offset ==> !Accepts(q, k, b)
    ensures at + offset <= U32_MAX && IsFirstFit(q, k, at, at + offset)
  {
  }

  ghost predicate WithinBounds(s: Chain) { Bounded(s.queue) && forall c :: c in s.splits ==> SplitsOk(s.splits[c]) }

  lemma {:induction false} SettingsKeepBounds(s: Chain, who: Account, call: Ledger.Call, env: Env, s': Chain)
    requires WithinBounds(s) && Ledger.Apply(s, who, call, env) == Ok(s')
    requires call.RegisterContent? || call.SetRoyaltySplits? || call.EnableAutoRenew? || call.DisableAutoRenew? || call.SetMeter?
    ensures WithinBounds(s')
  {
    hide Ledger.GrantSubscription;
    hide Ledger.ExtendSubscription;
    hide Ledger.GrantViews;
    hide Ledger.GrantOwnership;
    hide Ledger.MoveOwnership;
    hide Ledger.UseView;
    if call.EnableAutoRenew? {
      var k := Key(call.content, who);
      EnqueueIsFirstFit(s.queue, k, Max(s.subscriptions[k].expiry, SatAdd32(s.now, 1)));
    }
  }

  /** No extrinsic overfills a queue bucket or stores invalid royalty splits. */
  lemma {:induction false} ApplyKeepsBounds(s: Chain, who: Account, call: Ledger.Call, env: Env, s': Chain)
    requires WithinBounds(s) && Ledger.Apply(s, who, call, env) == Ok(s') && call == Runs.AsCrossChain(who, call)
    ensures WithinBounds(s')
  {
    hide Ledger.GrantSubscription;
    hide Ledger.ExtendSubscription;
    hide Ledger.GrantViews;
    hide Ledger.GrantOwnership;
    hide Ledger.MoveOwnership;
    hide Ledger.UseView;
    hide Effects.Subscribed;
    hide Effects.Renewed;
    hide Effects.PackGrown;
    hide Effects.PackStarted;
    hide Effects.PackReduced;
    hide Effects.PackFinished;
    hide Effects.OwnershipSold;
    hide Effects.OwnershipPassed;
    match call
    case XcmSubscribe(c, b) => Effects.GrantSubscriptionEffect(s, who, Key(c, b), env, s');
    case XcmRenewSubscription(c, b) => Effects.ExtendEffect(s, who, Key(c, b), env, s');
    case XcmPurchaseViews(c, b, n) => Effects.GrantViewsEffect(s, who, Key(c, b), n, env, s');
    case XcmPurchaseOwnership(c, b) => Effects.GrantOwnershipEffect(s, who, Key(c, b), env, s');
    case XcmTransferOwnership(c, src, dst) => Effects.MoveOwnershipEffect(s, c, src, dst, env, s');
    case ConsumeView(c) => Effects.UseViewEffect(s, Key(c, who), env, s');
    case ConsumeViewFor(c, viewer) => Effects.UseViewEffect(s, Key(c, viewer), env, s');
    case _ => SettingsKeepBounds(s, who, call, env, s');
  }
}
