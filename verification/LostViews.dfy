/**
  Views bought while a pack is full are lost: the simple rule "pay-per-view access while views
  bought exceed views used" is false of the pallet, and this is a run that breaks it.
  `Theorems.ViewAccessIff` says exactly when the rule holds.
*/
module LostViews {
  import opened Numbers
  import opened Bank
  import opened RenewalQueue
  import opened Ledger
  import opened Histories
  import opened Effects

  const BUYER := Account([
    0xd4, 0x35, 0x93, 0xc7, 0x15, 0xfd, 0xd3, 0x1c, 0x61, 0x14, 0x1a, 0xbd, 0x04, 0xa9, 0x9f, 0xd6,
    0x82, 0x2c, 0x85, 0x58, 0x85, 0x4c, 0xcd, 0xe3, 0x9a, 0x56, 0x84, 0xe7, 0xa5, 0x6d, 0xa2, 0x7d])
  const PAIR := Key(0, BUYER)

  /** A currency and an NFT pallet that refuse nothing. */
  function Willing(): Env { Env((bank, src, dst, amount) => true, true, true) }

  function Fresh(): Chain {
    Chain(1, 0, 0, 0, map[], map[], map[], map[], map[], {}, map[], map[], map[], map[], map[], Genesis)
  }

  function Does(call: Call): Step { Extrinsic(BUYER, call, Willing()) }

  /** Register a free content, fill a pack to 2^32 - 1 views and buy one more. */
  function Purchases(): seq<Step> {
    [Does(RegisterContent(0, 0, 0, 0)), Does(PurchaseViews(0, U32_MAX)), Does(PurchaseViews(0, 1))]
  }

  function Uses(n: nat): seq<Step> { seq(n, i => Does(ConsumeView(0))) }

  lemma {:induction false} AfterRegister()
    ensures var s := Run(Fresh(), [Does(RegisterContent(0, 0, 0, 0))]);
            && s.contents == map[0 := Content(BUYER, 0, 0, 0, 0, 0, 0)] && s.nextItem == map[0 := 1]
            && s.viewPacks == map[] && s.subscriptions == map[] && s.ownership == map[]
            && s.splits == map[] && s.bank == map[] && s.log == Genesis
  {
    assert [Does(RegisterContent(0, 0, 0, 0))][..0] == [];
    assert Run(Fresh(), []) == Fresh();
  }

  lemma {:induction false} PurchaseSucceeds(s: Chain, views: u32, s': Chain)
    requires s.contents == map[0 := Content(BUYER, 0, 0, 0, 0, 0, 0)] && s.splits == map[] && 0 < views
    requires ItemCounter(s, 0) < U32_MAX && s' == Next(s, Does(PurchaseViews(0, views)))
    ensures GrantViews(s, BUYER, PAIR, views, Willing()) == Ok(s')
  {
    hide GrantSubscription;
    hide ExtendSubscription;
    hide GrantOwnership;
    hide MoveOwnership;
    hide UseView;
    assert PayFor(s, BUYER, 0, 0, Willing().allow) == Ok(s);
  }

  /** A purchase of views changes the view pack and the log as expected, and no other right. */
  ghost predicate Purchased(s: Chain, s': Chain, k: Key, views: u32) {
    && s'.contents == s.contents && s'.splits == s.splits && s'.ownership == s.ownership
    && s'.subscriptions == s.subscriptions
    && k in s'.viewPacks
    && s'.viewPacks[k].views == SatAdd32(if k in s.viewPacks then s.viewPacks[k].views else 0, views)
    && Bought(s'.log, k) == Bought(s.log, k) + views && Used(s'.log, k) == Used(s.log, k)
  }

  lemma {:induction false} GrownIsPurchased(s: Chain, s': Chain, k: Key, views: u32)
    requires PackGrown(s, s', k, views)
    ensures Purchased(s, s', k, views) && s'.nextItem == s.nextItem
  {
  }

  lemma {:induction false} StartedIsPurchased(s: Chain, s': Chain, k: Key, views: u32)
    requires PackStarted(s, s', k, views)
    ensures Purchased(s, s', k, views)
    ensures var c := s.contents[k.content].collection; s'.nextItem == s.nextItem[c := ItemCounter(s, c) + 1]
  {
    assert Bought(s'.log.past, k) == Bought(s.log, k) && Used(s'.log.past, k) == Used(s.log, k);
  }

  lemma {:induction false} FreePurchase(s: Chain, views: u32, s': Chain)
    requires s.contents == map[0 := Content(BUYER, 0, 0, 0, 0, 0, 0)] && s.splits == map[] && 0 < views
    requires ItemCounter(s, 0) < U32_MAX && s' == Next(s, Does(PurchaseViews(0, views)))
    ensures Purchased(s, s', PAIR, views) && ItemCounter(s', 0) <= ItemCounter(s, 0) + 1
  {
    hide Next;
    hide Purchased;
    hide PackGrown;
    hide PackStarted;
    hide GrantViews;
    PurchaseSucceeds(s, views, s');
    GrantViewsEffect(s, BUYER, PAIR, views, Willing(), s');
    if PAIR in s.viewPacks {
      GrownIsPurchased(s, s', PAIR, views);
    } else {
      StartedIsPurchased(s, s', PAIR, views);
    }
  }

  lemma {:induction false} AfterPurchases()
    ensures var s := Run(Fresh(), Purchases());
            && PAIR !in s.ownership && PAIR !in s.subscriptions && 0 in s.contents
            && PAIR in s.viewPacks && s.viewPacks[PAIR].views == U32_MAX
            && Bought(s.log, PAIR) == U32_MAX + 1 && Used(s.log, PAIR) == 0
  {
    var steps := Purchases();
    AfterRegister();
    assert steps[..1] == [steps[0]];
    var s1 := Run(Fresh(), steps[..1]);
    assert s1 == Run(Fresh(), [Does(RegisterContent(0, 0, 0, 0))]);
    assert steps[..2][..1] == steps[..1];
    var s2 := Run(Fresh(), steps[..2]);
    FreePurchase(s1, U32_MAX, s2);
    FreePurchase(s2, 1, Run(Fresh(), steps));
  }

  lemma {:induction false} UseSucceeds(s: Chain)
    requires PAIR in s.viewPacks && 0 < s.viewPacks[PAIR].views && 0 in s.contents
    ensures UseView(s, PAIR, Willing()) == Ok(Next(s, Does(ConsumeView(0))))
  {
    hide GrantSubscription;
    hide ExtendSubscription;
    hide GrantOwnership;
    hide MoveOwnership;
    hide GrantViews;
  }

  /** One view of the pair was used, and no other right changed. */
  ghost predicate UsedOne(s: Chain, s': Chain, k: Key)
    requires k in s.viewPacks
  {
    && s'.ownership == s.ownership && s'.subscriptions == s.subscriptions && s'.contents == s.contents
    && (if s.viewPacks[k].views == 1 then k !in s'.viewPacks
        else k in s'.viewPacks && s'.viewPacks[k].views == s.viewPacks[k].views - 1)
    && s'.log == Then(s.log, ViewUsed(k))
  }

  lemma {:induction false} FinishedIsUsed(s: Chain, s': Chain, k: Key)
    requires PackFinished(s, s', k)
    ensures UsedOne(s, s', k)
  {
  }

  lemma {:induction false} ReducedIsUsed(s: Chain, s': Chain, k: Key)
    requires PackReduced(s, s', k)
    ensures UsedOne(s, s', k)
  {
  }

  lemma {:induction false} UseOne(s: Chain, s': Chain)
    requires PAIR in s.viewPacks && 0 < s.viewPacks[PAIR].views && 0 in s.contents && s' == Next(s, Does(ConsumeView(0)))
    ensures UsedOne(s, s', PAIR)
  {
    hide Next;
    hide UseView;
    hide UsedOne;
    hide PackFinished;
    hide PackReduced;
    UseSucceeds(s);
    UseViewEffect(s, PAIR, Willing(), s');
    if s.viewPacks[PAIR].views == 1 {
      FinishedIsUsed(s, s', PAIR);
    } else {
      ReducedIsUsed(s, s', PAIR);
    }
  }

  lemma {:induction false} AfterUses(n: nat)
    requires n <= U32_MAX
    ensures var s := Run(Fresh(), Purchases() + Uses(n));
            && PAIR !in s.ownership && PAIR !in s.subscriptions && 0 in s.contents
            && (if n < U32_MAX then PAIR in s.viewPacks && s.viewPacks[PAIR].views == U32_MAX - n else PAIR !in s.viewPacks)
            && Bought(s.log, PAIR) == U32_MAX + 1 && Used(s.log, PAIR) == n
  {
    hide Next;
    var steps := Purchases() + Uses(n);
    if n == 0 {
      AfterPurchases();
      assert steps == Purchases();
    } else {
      AfterUses(n - 1);
      assert steps[..|steps| - 1] == Purchases() + Uses(n - 1);
      assert steps[|steps| - 1] == Does(ConsumeView(0));
      UseOne(Run(Fresh(), steps[..|steps| - 1]), Run(Fresh(), steps));
    }
  }

  /** A reachable state in which more views were bought than used and yet there is no access. */
  lemma {:induction false} BoughtViewsCanBeLost()
    ensures IsGenesis(Fresh())
    ensures var s := Run(Fresh(), Purchases() + Uses(U32_MAX));
            Bought(s.log, PAIR) > Used(s.log, PAIR) && AccessRights(s, PAIR) == None
  {
    AfterUses(U32_MAX);
  }
}
