/** Ownership is conserved: it is created only by sales and moves only between accounts. */
module Owners {
  import opened Numbers
  import opened Bank
  import opened RenewalQueue
  import opened Ledger
  import opened Histories
  import opened Effects

  ghost function OwnersOf(ownership: map<Key, u32>, c: u32): set<Key> {
    set k | k in ownership && k.content == c
  }

  /** Every content has as many owners as it had ownership sales. */
  ghost predicate OwnersCounted(s: Chain) {
    forall c: u32 :: |OwnersOf(s.ownership, c)| == OwnershipSales(s.log, c)
  }

  ghost predicate SameSales(s: Chain, s': Chain) {
    s'.ownership == s.ownership && forall c: u32 :: OwnershipSales(s'.log, c) == OwnershipSales(s.log, c)
  }

  lemma {:induction false} SaleAddsOwner(s: Chain, s': Chain, k: Key)
    requires OwnersCounted(s) && OwnershipSold(s, s', k)
    ensures OwnersCounted(s')
  {
    forall c: u32
      ensures |OwnersOf(s'.ownership, c)| == OwnershipSales(s'.log, c)
    {
      assert OwnershipSales(s'.log.past, c) == OwnershipSales(s.log, c);
      var before := OwnersOf(s.ownership, c);
      assert OwnersOf(s'.ownership, c) == if c == k.content then before + {k} else before;
    }
  }

  lemma {:induction false} TransferKeepsCount(s: Chain, s': Chain, c: u32, src: Account, dst: Account)
    requires OwnersCounted(s) && OwnershipPassed(s, s', c, src, dst)
    ensures OwnersCounted(s')
  {
    forall c': u32
      ensures |OwnersOf(s'.ownership, c')| == OwnershipSales(s'.log, c')
    {
      assert OwnershipSales(s'.log.past, c') == OwnershipSales(s.log, c');
      var before := OwnersOf(s.ownership, c');
      if c' == c {
        assert OwnersOf(s'.ownership, c') == (before - {Key(c, src)}) + {Key(c, dst)};
      } else {
        assert OwnersOf(s'.ownership, c') == before;
      }
    }
  }

  lemma {:induction false} SubscribedSales(s: Chain, s': Chain, payer: Account, k: Key)
    requires Subscribed(s, s', payer, k)
    ensures SameSales(s, s')
  {
    assert forall c: u32 :: OwnershipSales(s'.log, c) == OwnershipSales(s'.log.past, c);
  }

  lemma {:induction false} PackStartedSales(s: Chain, s': Chain, k: Key, views: u32)
    requires PackStarted(s, s', k, views)
    ensures SameSales(s, s')
  {
    assert forall c: u32 :: OwnershipSales(s'.log, c) == OwnershipSales(s'.log.past, c);
  }

  lemma {:induction false} OtherSales(s: Chain, s': Chain)
    requires s'.ownership == s.ownership
    requires s'.log == s.log || (s'.log.Then? && s'.log.past == s.log && !s'.log.last.OwnershipBought?)
    ensures SameSales(s, s')
  {
  }
}
