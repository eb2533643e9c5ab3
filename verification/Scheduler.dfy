/** Consistency of the renewal scheduler and freedom from starvation, over every run. */
module Scheduler {
  import opened Numbers
  import opened Bank
  import opened RenewalQueue
  import opened Ledger
  import opened Histories
  import opened Effects

  /** Latest block at which an enabled pair must come up for renewal. */
  function Deadline(s: Chain, k: Key): int
    requires k in s.subscriptions
  {
    Min(Max(s.subscriptions[k].expiry, EnabledAt(s.log, k) + 1) + MAX_RENEWAL_SLOT_SEARCH - 1, U32_MAX)
  }

  ghost predicate ScheduledAt(s: Chain, k: Key, b: u32) {
    k in s.subscriptions && s.now < b <= Deadline(s, k) && k in Bucket(s.queue, b)
  }

  /** The pair is in a future bucket before its deadline, or still among the entries being processed. */
  ghost predicate Waiting(s: Chain, k: Key, tail: seq<Key>) {
    k in tail || exists b: u32 :: ScheduledAt(s, k, b)
  }

  /**
    The four stores agree while `tail` is the part of the due bucket the hook has not processed;
    between blocks `tail` is empty.
  */
  ghost predicate Consistent(s: Chain, tail: seq<Key>) {
    && 1 <= s.minPeriod
    && s.now < U32_MAX
    && Bounded(s.queue)
    && (forall b :: b in s.queue ==> s.now < b)
    && Numbered(s)
    && (forall k :: k in s.autoRenew <==> k in s.subscriptions && s.subscriptions[k].autoRenew)
    && (forall k :: k in s.autoRenew <==> SwitchedOn(s.log, k))
    && (forall k :: k in s.autoRenew ==> k.content in s.contents && s.minPeriod <= s.contents[k.content].period)
    && (forall k :: k in s.autoRenew ==> Waiting(s, k, tail))
  }

  /** Contents are numbered below the counter. */
  ghost predicate Numbered(s: Chain) { forall c :: c in s.contents ==> c < s.nextContent }

  /** A change the scheduler does not notice: expiries and enabling blocks may only grow. */
  ghost predicate Quiet(s: Chain, s': Chain) {
    && s'.minPeriod == s.minPeriod && s'.now == s.now && s'.queue == s.queue && s'.autoRenew == s.autoRenew
    && (forall c :: c in s.contents ==> c in s'.contents && s'.contents[c] == s.contents[c])
    && Numbered(s')
    && (forall k :: k in s.subscriptions ==>
          && k in s'.subscriptions
          && s'.subscriptions[k].autoRenew == s.subscriptions[k].autoRenew
          && s.subscriptions[k].expiry <= s'.subscriptions[k].expiry)
    && (forall k :: k in s'.subscriptions && k !in s.subscriptions ==> !s'.subscriptions[k].autoRenew)
    && SameEnabling(s, s')
  }

  ghost predicate SameEnabling(s: Chain, s': Chain) {
    forall k :: EnabledAt(s'.log, k) == EnabledAt(s.log, k) && SwitchedOn(s'.log, k) == SwitchedOn(s.log, k)
  }

  lemma {:induction false} QuietKeepsConsistent(s: Chain, s': Chain, tail: seq<Key>)
    requires Consistent(s, tail) && Quiet(s, s')
    ensures Consistent(s', tail)
  {
    forall k | k in s'.autoRenew
      ensures Waiting(s', k, tail)
    {
      if k !in tail {
        var b: u32 :| ScheduledAt(s, k, b);
        assert ScheduledAt(s', k, b);
      }
    }
  }

  /** Minting an item and then reporting anything but a switch switches nothing. */
  lemma {:induction false} MintSwitchesNothing(s: Chain, s': Chain)
    requires s'.log.Then? && !s'.log.last.AutoRenewOn? && !s'.log.last.AutoRenewOff?
    requires s'.log.past.Then? && s'.log.past.last.Minted? && s'.log.past.past == s.log
    ensures SameEnabling(s, s')
  {
    forall k
      ensures EnabledAt(s'.log, k) == EnabledAt(s.log, k) && SwitchedOn(s'.log, k) == SwitchedOn(s.log, k)
    {
      assert EnabledAt(s'.log.past, k) == EnabledAt(s.log, k) && SwitchedOn(s'.log.past, k) == SwitchedOn(s.log, k);
    }
  }

  lemma {:induction false} RegisteredIsQuiet(s: Chain, s': Chain, content: Content)
    requires Registered(s, s', content) && Numbered(s)
    ensures Quiet(s, s')
  {
  }

  lemma {:induction false} SubscribedIsQuiet(s: Chain, s': Chain, payer: Account, k: Key)
    requires Subscribed(s, s', payer, k) && Numbered(s)
    ensures Quiet(s, s')
  {
    hide SameEnabling;
    MintSwitchesNothing(s, s');
  }

  lemma {:induction false} RenewedIsQuiet(s: Chain, s': Chain, payer: Account, k: Key)
    requires Renewed(s, s', payer, k) && Numbered(s)
    ensures Quiet(s, s')
  {
  }

  lemma {:induction false} PackGrownIsQuiet(s: Chain, s': Chain, k: Key, views: u32)
    requires PackGrown(s, s', k, views) && Numbered(s)
    ensures Quiet(s, s')
  {
  }

  lemma {:induction false} PackStartedIsQuiet(s: Chain, s': Chain, k: Key, views: u32)
    requires PackStarted(s, s', k, views) && Numbered(s)
    ensures Quiet(s, s')
  {
    hide SameEnabling;
    MintSwitchesNothing(s, s');
  }

  lemma {:induction false} PackReducedIsQuiet(s: Chain, s': Chain, k: Key)
    requires PackReduced(s, s', k) && Numbered(s)
    ensures Quiet(s, s')
  {
  }

  lemma {:induction false} PackFinishedIsQuiet(s: Chain, s': Chain, k: Key)
    requires PackFinished(s, s', k) && Numbered(s)
    ensures Quiet(s, s')
  {
  }

  lemma {:induction false} OwnershipSoldIsQuiet(s: Chain, s': Chain, k: Key)
    requires OwnershipSold(s, s', k) && Numbered(s)
    ensures Quiet(s, s')
  {
    hide SameEnabling;
    MintSwitchesNothing(s, s');
  }

  lemma {:induction false} OwnershipPassedIsQuiet(s: Chain, s': Chain, c: u32, src: Account, dst: Account)
    requires OwnershipPassed(s, s', c, src, dst) && Numbered(s)
    ensures Quiet(s, s')
  {
    hide SameEnabling;
    MintSwitchesNothing(s, s');
  }

  lemma {:induction false} SwitchOff(s: Chain, k: Key, tail: seq<Key>)
    requires Consistent(s, [k] + tail) || Consistent(s, tail)
    requires k in s.subscriptions
    ensures Consistent(SetAutoRenew(s, k, false), tail)
  {
    var s' := SetAutoRenew(s, k, false);
    forall k' | k' in s'.autoRenew
      ensures Waiting(s', k', tail)
    {
      if k' !in tail {
        assert k' !in [k] + tail;
        var b: u32 :| ScheduledAt(s, k', b);
        assert ScheduledAt(s', k', b);
      }
    }
  }

  /** Placing a pair at or after its expiry, with an empty past, discharges it from the tail. */
  lemma {:induction false} PlaceKeepsConsistent(s: Chain, k: Key, at: u32, tail: seq<Key>)
    requires Consistent(s, [k] + tail)
    requires k in s.autoRenew && s.now < at <= Max(s.subscriptions[k].expiry, EnabledAt(s.log, k) + 1)
    requires Enqueue(s.queue, k, at).Some?
    ensures Consistent(s.(queue := Enqueue(s.queue, k, at).value), tail)
  {
    EnqueueIsFirstFit(s.queue, k, at);
    var slot := Slot(s.queue, k, at).value;
    var s' := s.(queue := Enqueue(s.queue, k, at).value);
    forall k' | k' in s'.autoRenew
      ensures Waiting(s', k', tail)
    {
      if k' == k {
        assert ScheduledAt(s', k, slot);
      } else if k' !in tail {
        assert k' !in [k] + tail;
        var b: u32 :| ScheduledAt(s, k', b);
        assert ScheduledAt(s', k', b);
      }
    }
  }

  lemma {:induction false} RequeueKeepsConsistent(s: Chain, k: Key, at: u32, tail: seq<Key>)
    requires Consistent(s, [k] + tail)
    requires k in s.autoRenew && s.now < at <= s.subscriptions[k].expiry
    ensures Consistent(Requeue(s, k, at), tail)
  {
    if Enqueue(s.queue, k, at).Some? {
      PlaceKeepsConsistent(s, k, at, tail);
    } else {
      SwitchOff(s, k, tail);
    }
  }

  lemma {:induction false} ChargeKeepsConsistent(s: Chain, k: Key, tail: seq<Key>, allow: Policy)
    requires Consistent(s, [k] + tail) && k in s.autoRenew
    requires ExtendSubscription(s, k.who, k, Env(allow, false, false)).Ok?
    ensures var renewed := ExtendSubscription(s, k.who, k, Env(allow, false, false)).value;
            Consistent(Requeue(renewed, k, SatAdd32(s.now, s.contents[k.content].period)), tail)
  {
    var renewed := ExtendSubscription(s, k.who, k, Env(allow, false, false)).value;
    ExtendEffect(s, k.who, k, Env(allow, false, false), renewed);
    RenewedIsQuiet(s, renewed, k.who, k);
    QuietKeepsConsistent(s, renewed, [k] + tail);
    RequeueKeepsConsistent(renewed, k, SatAdd32(s.now, s.contents[k.content].period), tail);
  }

  lemma {:induction false} DroppedKeepsConsistent(s: Chain, k: Key, tail: seq<Key>)
    requires Consistent(s, [k] + tail) && k !in s.autoRenew
    ensures Consistent(s, tail)
  {
    assert forall k' :: k' in s.autoRenew && k' !in tail ==> k' !in [k] + tail;
  }

  lemma {:induction false} RenewEntryKeepsConsistent(s: Chain, k: Key, tail: seq<Key>, allow: Policy)
    requires Consistent(s, [k] + tail)
    ensures Consistent(RenewEntry(s, k, allow), tail)
  {
    if k !in s.autoRenew {
      DroppedKeepsConsistent(s, k, tail);
    } else if s.now < s.subscriptions[k].expiry {
      RequeueKeepsConsistent(s, k, s.subscriptions[k].expiry, tail);
    } else if ExtendSubscription(s, k.who, k, Env(allow, false, false)).Ok? {
      ChargeKeepsConsistent(s, k, tail, allow);
    } else {
      SwitchOff(s, k, tail);
    }
  }

  lemma {:induction false} RenewAllKeepsConsistent(s: Chain, due: seq<Key>, i: nat, allow: Policy)
    requires Consistent(s, due) && i <= |due|
    ensures Consistent(RenewAll(s, due[..i], allow), due[i..])
    decreases i
  {
    if i == 0 {
      assert due[0..] == due;
    } else {
      assert [due[0]] + due[1..] == due;
      RenewEntryKeepsConsistent(s, due[0], due[1..], allow);
      RenewAllKeepsConsistent(RenewEntry(s, due[0], allow), due[1..], i - 1, allow);
      assert due[..i][1..] == due[1..][..i - 1];
      assert due[1..][i - 1..] == due[i..];
    }
  }

  lemma {:induction false} OpenBlockKeepsConsistent(s: Chain)
    requires Consistent(s, []) && s.now + 1 < U32_MAX
    ensures Consistent(OpenBlock(s), Bucket(s.queue, s.now + 1))
  {
    var s', due := OpenBlock(s), Bucket(s.queue, s.now + 1);
    forall k | k in s'.autoRenew
      ensures Waiting(s', k, due)
    {
      var b: u32 :| ScheduledAt(s, k, b);
      if b > s.now + 1 {
        assert ScheduledAt(s', k, b);
      }
    }
  }

  lemma {:induction false} SwitchOn(s: Chain, k: Key)
    requires Consistent(s, []) && k in s.subscriptions && k.content in s.contents && s.minPeriod <= s.contents[k.content].period
    ensures Consistent(SetAutoRenew(s, k, true), [k] + [])
  {
    var on := SetAutoRenew(s, k, true);
    forall k' | k' in on.autoRenew
      ensures Waiting(on, k', [k] + [])
    {
      if k' != k {
        var b: u32 :| ScheduledAt(s, k', b);
        assert ScheduledAt(on, k', b);
      }
    }
  }

  lemma {:induction false} EnableKeepsConsistent(s: Chain, k: Key)
    requires Consistent(s, []) && EnableRenewal(s, k).Ok?
    ensures Consistent(EnableRenewal(s, k).value, [])
  {
    hide Consistent;
    hide Enqueue;
    SwitchOn(s, k);
    PlaceKeepsConsistent(SetAutoRenew(s, k, true), k, Max(s.subscriptions[k].expiry, SatAdd32(s.now, 1)), []);
  }
}
