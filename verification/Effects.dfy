/**
  The effects a step can have on the rights chain, without the payment that goes with it. Local and
  cross-chain calls share their effects, and the block hook is a sequence of them, so an invariant
  is proved once per effect.
*/
module Effects {
  import opened Numbers
  import opened Bank
  import opened Royalties
  import opened RenewalQueue
  import opened Ledger

  ghost predicate Registered(s: Chain, s': Chain, content: Content) {
    && s.nextContent < U32_MAX && s.nextCollection < U32_MAX
    && content.collection == s.nextCollection && content.item == 0
    && s' == s.(contents := s.contents[s.nextContent := content], nextContent := s.nextContent + 1,
                nextCollection := s.nextCollection + 1, nextItem := s.nextItem[s.nextCollection := 1])
  }

  /** A child item can be minted for the content of the pair. */
  ghost predicate CanNest(s: Chain, k: Key) {
    k.content in s.contents && ItemCounter(s, s.contents[k.content].collection) < U32_MAX
  }

  ghost predicate Subscribed(s: Chain, s': Chain, payer: Account, k: Key) {
    && CanNest(s, k) && k !in s.subscriptions
    && var content := s.contents[k.content];
       var sub := Subscription(SatAdd32(s.now, content.period), false, ItemCounter(s, content.collection));
       s' == Nest(s, content).(bank := s'.bank, subscriptions := s.subscriptions[k := sub],
                               log := Then(Nest(s, content).log, Charged(k, payer, s.now)))
  }

  ghost predicate Renewed(s: Chain, s': Chain, payer: Account, k: Key) {
    && k.content in s.contents && k in s.subscriptions && s.subscriptions[k].expiry <= s.now
    && var sub := s.subscriptions[k].(expiry := SatAdd32(s.now, s.contents[k.content].period));
       s' == s.(bank := s'.bank, subscriptions := s.subscriptions[k := sub], log := Then(s.log, Charged(k, payer, s.now)))
  }

  ghost predicate PackGrown(s: Chain, s': Chain, k: Key, views: u32) {
    && k in s.viewPacks && 0 < views
    && var pack := s.viewPacks[k].(views := SatAdd32(s.viewPacks[k].views, views));
       s' == s.(bank := s'.bank, viewPacks := s.viewPacks[k := pack], log := Then(s.log, ViewsBought(k, views)))
  }

  ghost predicate PackStarted(s: Chain, s': Chain, k: Key, views: u32) {
    && CanNest(s, k) && k !in s.viewPacks && 0 < views
    && var content := s.contents[k.content];
       var pack := ViewPack(views, ItemCounter(s, content.collection));
       s' == Nest(s, content).(bank := s'.bank, viewPacks := s.viewPacks[k := pack],
                               log := Then(Nest(s, content).log, ViewsBought(k, views)))
  }

  ghost predicate PackReduced(s: Chain, s': Chain, k: Key) {
    && k in s.viewPacks && 1 < s.viewPacks[k].views
    && var pack := s.viewPacks[k].(views := s.viewPacks[k].views - 1);
       s' == s.(viewPacks := s.viewPacks[k := pack], log := Then(s.log, ViewUsed(k)))
  }

  ghost predicate PackFinished(s: Chain, s': Chain, k: Key) {
    && k in s.viewPacks && s.viewPacks[k].views == 1 && k.content in s.contents
    && s' == s.(viewPacks := s.viewPacks - {k},
                parent := s.parent - {(s.contents[k.content].collection, s.viewPacks[k].child)},
                log := Then(s.log, ViewUsed(k)))
  }

  ghost predicate OwnershipSold(s: Chain, s': Chain, k: Key) {
    && CanNest(s, k) && k !in s.ownership
    && var content := s.contents[k.content];
       s' == Nest(s, content).(bank := s'.bank, ownership := s.ownership[k := ItemCounter(s, content.collection)],
                               log := Then(Nest(s, content).log, OwnershipBought(k)))
  }

  ghost predicate OwnershipPassed(s: Chain, s': Chain, c: u32, src: Account, dst: Account) {
    && CanNest(s, Key(c, src)) && Key(c, src) in s.ownership && Key(c, dst) !in s.ownership
    && var content := s.contents[c];
       var burnt := s.(parent := s.parent - {(content.collection, s.ownership[Key(c, src)])});
       s' == Nest(burnt, content).(
                ownership := (s.ownership - {Key(c, src)})[Key(c, dst) := ItemCounter(s, content.collection)],
                log := Then(Nest(burnt, content).log, OwnershipMoved(c, src, dst)))
  }

  ghost predicate Switched(s: Chain, s': Chain, k: Key, on: bool) {
    k in s.subscriptions && s' == SetAutoRenew(s, k, on).(queue := s'.queue)
  }

  /** Time, schedule, configuration and money change, but no right does. */
  ghost predicate Background(s: Chain, s': Chain) {
    && s.now <= s'.now && (s'.now == s.now || s'.now < U32_MAX) && s.nextCollection <= s'.nextCollection
    && (forall c :: c in s'.splits ==> SplitsOk(s'.splits[c]) || (c in s.splits && s'.splits[c] == s.splits[c]))
    && s' == s.(now := s'.now, nextCollection := s'.nextCollection, autoRenew := s'.autoRenew, queue := s'.queue,
                splits := s'.splits, meters := s'.meters, bank := s'.bank)
  }

  /** Contents, settings, schedule and consent to auto-renewal are untouched. */
  ghost predicate SettingsKept(s: Chain, s': Chain) {
    && s'.contents == s.contents && s'.splits == s.splits && s'.meters == s.meters
    && s'.queue == s.queue && s'.autoRenew == s.autoRenew
  }

  /** Nobody lost ownership. */
  ghost predicate OwnersKept(s: Chain, s': Chain) { s.ownership.Keys <= s'.ownership.Keys }

  lemma {:induction false} GrantSubscriptionEffect(s: Chain, payer: Account, k: Key, env: Env, s': Chain)
    requires GrantSubscription(s, payer, k, env) == Ok(s')
    ensures Subscribed(s, s', payer, k)
    ensures SettingsKept(s, s') && OwnersKept(s, s')
  {
    hide Pay;
  }

  lemma {:induction false} ExtendEffect(s: Chain, payer: Account, k: Key, env: Env, s': Chain)
    requires ExtendSubscription(s, payer, k, env) == Ok(s')
    ensures Renewed(s, s', payer, k)
    ensures SettingsKept(s, s') && OwnersKept(s, s')
  {
    hide Pay;
  }

  lemma {:induction false} TopUpEffect(s: Chain, payer: Account, k: Key, views: u32, env: Env, s': Chain)
    requires GrantViews(s, payer, k, views, env) == Ok(s') && k in s.viewPacks
    ensures PackGrown(s, s', k, views)
    ensures SettingsKept(s, s') && OwnersKept(s, s')
  {
    hide Pay;
    hide MintChild;
  }

  lemma {:induction false} FirstViewsEffect(s: Chain, payer: Account, k: Key, views: u32, env: Env, s': Chain)
    requires GrantViews(s, payer, k, views, env) == Ok(s') && k !in s.viewPacks
    ensures PackStarted(s, s', k, views)
    ensures SettingsKept(s, s') && OwnersKept(s, s')
  {
    hide Pay;
  }

  lemma {:induction false} GrantViewsEffect(s: Chain, payer: Account, k: Key, views: u32, env: Env, s': Chain)
    requires GrantViews(s, payer, k, views, env) == Ok(s')
    ensures if k in s.viewPacks then PackGrown(s, s', k, views) else PackStarted(s, s', k, views)
    ensures SettingsKept(s, s') && OwnersKept(s, s')
  {
    hide GrantViews;
    hide PackGrown;
    hide PackStarted;
    hide SettingsKept;
    hide OwnersKept;
    if k in s.viewPacks {
      TopUpEffect(s, payer, k, views, env, s');
    } else {
      FirstViewsEffect(s, payer, k, views, env, s');
    }
  }

  lemma {:induction false} UseViewEffect(s: Chain, k: Key, env: Env, s': Chain)
    requires UseView(s, k, env) == Ok(s')
    ensures k in s.viewPacks
    ensures if s.viewPacks[k].views == 1 then PackFinished(s, s', k) else PackReduced(s, s', k)
    ensures SettingsKept(s, s') && OwnersKept(s, s')
  {
  }

  lemma {:induction false} GrantOwnershipEffect(s: Chain, payer: Account, k: Key, env: Env, s': Chain)
    requires GrantOwnership(s, payer, k, env) == Ok(s')
    ensures OwnershipSold(s, s', k)
    ensures SettingsKept(s, s') && OwnersKept(s, s')
  {
    hide Pay;
  }

  lemma {:induction false} MoveOwnershipEffect(s: Chain, c: u32, src: Account, dst: Account, env: Env, s': Chain)
    requires MoveOwnership(s, c, src, dst, env) == Ok(s')
    ensures OwnershipPassed(s, s', c, src, dst)
    ensures SettingsKept(s, s')
  {
  }

  /** The schedule of a pair changes: it is queued again, dropped, or switched off. */
  ghost predicate Rescheduled(s: Chain, s': Chain, k: Key) { Background(s, s') || Switched(s, s', k, false) }

  lemma {:induction false} RequeueEffect(s: Chain, k: Key, at: u32)
    requires k in s.subscriptions
    ensures Rescheduled(s, Requeue(s, k, at), k)
  {
    if Enqueue(s.queue, k, at).Some? {
      assert Background(s, Requeue(s, k, at));
    } else {
      assert Switched(s, Requeue(s, k, at), k, false);
    }
  }

  /** A due entry whose subscription has expired is charged, or gives auto-renewal up. */
  lemma {:induction false} DueEntryEffects(s: Chain, k: Key, allow: Policy) returns (mid: Chain)
    requires k in s.autoRenew && k in s.subscriptions && s.subscriptions[k].autoRenew
    requires s.subscriptions[k].expiry <= s.now && k.content in s.contents
    ensures mid == s || Renewed(s, mid, k.who, k)
    ensures Rescheduled(mid, RenewEntry(s, k, allow), k)
  {
    var r := ExtendSubscription(s, k.who, k, Env(allow, false, false));
    if r.Ok? {
      mid := r.value;
      ExtendEffect(s, k.who, k, Env(allow, false, false), mid);
      RequeueEffect(mid, k, SatAdd32(s.now, s.contents[k.content].period));
    } else {
      mid := s;
      SwitchOffEffect(s, k);
    }
  }

  lemma {:induction false} SwitchOffEffect(s: Chain, k: Key)
    requires k in s.subscriptions
    ensures Rescheduled(s, SetAutoRenew(s, k, false), k)
  {
    assert Switched(s, SetAutoRenew(s, k, false), k, false);
  }

  lemma {:induction false} DropEffect(s: Chain, k: Key)
    ensures Rescheduled(s, s, k) && Rescheduled(s, s.(autoRenew := s.autoRenew - {k}), k)
  {
    assert Background(s, s);
    assert Background(s, s.(autoRenew := s.autoRenew - {k}));
  }

  /** The hook's treatment of one entry is at most a renewal followed by a change of schedule. */
  lemma {:induction false} EntryEffects(s: Chain, k: Key, allow: Policy) returns (mid: Chain)
    ensures mid == s || Renewed(s, mid, k.who, k)
    ensures Rescheduled(mid, RenewEntry(s, k, allow), k)
  {
    mid := s;
    if k !in s.autoRenew || k !in s.subscriptions || !s.subscriptions[k].autoRenew {
      DropEffect(s, k);
    } else if s.now < s.subscriptions[k].expiry {
      RequeueEffect(s, k, s.subscriptions[k].expiry);
    } else if k.content in s.contents {
      mid := DueEntryEffects(s, k, allow);
    } else {
      SwitchOffEffect(s, k);
    }
  }
}
