/** The stored rights agree with the whole history of the chain: kept by every effect. */
module Rights {
  import opened Numbers
  import opened Bank
  import opened Royalties
  import opened RenewalQueue
  import opened Ledger
  import opened Histories
  import opened Effects

  /** Contents are numbered below the counter, and every right is for an existing content. */
  ghost predicate Catalogued(s: Chain) {
    && s.now < U32_MAX
    && (forall c :: c in s.contents ==> c < s.nextContent)
    && (forall k :: k in s.subscriptions || k in s.viewPacks || k in s.ownership ==> k.content in s.contents)
    && (forall c :: c in s.splits ==> SplitsOk(s.splits[c]))
  }

  /** A subscription runs for one period from its last charge, and exists from its first. */
  ghost predicate SubscriptionRecorded(s: Chain, k: Key) {
    match LastCharge(s.log, k)
    case None => k !in s.subscriptions
    case Some(t) =>
      && k.content in s.contents && t <= s.now
      && k in s.subscriptions && s.subscriptions[k].expiry == SatAdd32(t, s.contents[k.content].period)
  }

  ghost predicate PackRecorded(s: Chain, k: Key) {
    if k in s.viewPacks then 0 < s.viewPacks[k].views == Remaining(s.log, k)
    else Remaining(s.log, k) == 0
  }

  ghost predicate OwnershipRecorded(s: Chain, k: Key) { k in s.ownership <==> Owns(s.log, k) }

  ghost predicate KeyRecorded(s: Chain, k: Key) {
    SubscriptionRecorded(s, k) && PackRecorded(s, k) && OwnershipRecorded(s, k)
  }

  ghost predicate Recorded(s: Chain) {
    && Catalogued(s)
    && Spaced(s.log, s.contents)
    && forall k :: KeyRecorded(s, k)
  }

  lemma {:induction false} NewChargeIsSpaced(s: Chain, payer: Account, k: Key)
    requires Recorded(s) && k.content in s.contents
    requires k in s.subscriptions ==> s.subscriptions[k].expiry <= s.now
    ensures Spaced(Then(s.log, Charged(k, payer, s.now)), s.contents)
  {
    forall t1: u32 | ChargedAt(s.log, k, t1)
      ensures t1 + s.contents[k.content].period <= s.now
    {
      LastChargeIsLatest(s.log, s.contents, k, t1);
      assert KeyRecorded(s, k);
    }
  }

  /** An entry for a minted item says nothing about rights. */
  lemma {:induction false} MintSaysNothing(h: History, collection: u32, item: u32, k: Key)
    ensures var h' := Then(h, Minted(collection, item));
            && LastCharge(h', k) == LastCharge(h, k) && Owns(h', k) == Owns(h, k)
            && Bought(h', k) == Bought(h, k) && Used(h', k) == Used(h, k) && Clipped(h', k) == Clipped(h, k)
  {
  }

  lemma {:induction false} RegisteredRecorded(s: Chain, s': Chain, content: Content)
    requires Recorded(s) && Registered(s, s', content)
    ensures Recorded(s')
  {
    SpacedStays(s.log, s.contents, s'.contents);
    assert forall k :: KeyRecorded(s, k) ==> KeyRecorded(s', k);
  }

  lemma {:induction false} SubscribedRecorded(s: Chain, s': Chain, payer: Account, k: Key)
    requires Recorded(s) && Subscribed(s, s', payer, k)
    ensures Recorded(s')
  {
    assert KeyRecorded(s, k);
    NewChargeIsSpaced(s, payer, k);
    forall k' ensures KeyRecorded(s', k') {
      assert KeyRecorded(s, k');
      MintSaysNothing(s.log, s'.log.past.last.collection, s'.log.past.last.item, k');
    }
    assert Spaced(s'.log, s'.contents) by {
      forall t1: u32 | ChargedAt(s'.log.past, k, t1)
        ensures t1 + s.contents[k.content].period <= s.now
      {
        assert ChargedAt(s.log, k, t1);
      }
    }
  }

  lemma {:induction false} RenewedRecorded(s: Chain, s': Chain, payer: Account, k: Key)
    requires Recorded(s) && Renewed(s, s', payer, k)
    ensures Recorded(s')
  {
    NewChargeIsSpaced(s, payer, k);
    forall k' ensures KeyRecorded(s', k') {
      assert KeyRecorded(s, k');
    }
  }

  lemma {:induction false} PackChangeRecorded(s: Chain, s': Chain, k: Key, views: u32)
    requires Recorded(s)
    requires PackGrown(s, s', k, views) || PackReduced(s, s', k) || PackFinished(s, s', k)
    ensures Recorded(s')
  {
    forall k' ensures KeyRecorded(s', k') {
      assert KeyRecorded(s, k');
    }
  }

  lemma {:induction false} PackStartedRecorded(s: Chain, s': Chain, k: Key, views: u32)
    requires Recorded(s) && PackStarted(s, s', k, views)
    ensures Recorded(s')
  {
    forall k' ensures KeyRecorded(s', k') {
      assert KeyRecorded(s, k');
      MintSaysNothing(s.log, s'.log.past.last.collection, s'.log.past.last.item, k');
      assert Remaining(s'.log.past, k') == Remaining(s.log, k');
    }
  }

  lemma {:induction false} OwnershipSoldRecorded(s: Chain, s': Chain, k: Key)
    requires Recorded(s) && OwnershipSold(s, s', k)
    ensures Recorded(s')
  {
    forall k' ensures KeyRecorded(s', k') {
      assert KeyRecorded(s, k');
      MintSaysNothing(s.log, s'.log.past.last.collection, s'.log.past.last.item, k');
    }
  }

  lemma {:induction false} OwnershipPassedRecorded(s: Chain, s': Chain, c: u32, src: Account, dst: Account)
    requires Recorded(s) && OwnershipPassed(s, s', c, src, dst)
    ensures Recorded(s')
  {
    forall k' ensures KeyRecorded(s', k') {
      assert KeyRecorded(s, k');
      MintSaysNothing(s.log, s'.log.past.last.collection, s'.log.past.last.item, k');
    }
  }

  lemma {:induction false} ScheduleRecorded(s: Chain, s': Chain, k: Key, on: bool)
    requires Recorded(s) && (Background(s, s') || Switched(s, s', k, on))
    ensures Recorded(s')
  {
    forall k' ensures KeyRecorded(s', k') {
      assert KeyRecorded(s, k');
    }
  }
}
