/** The main results about the rights chain, each over every run from genesis. */
module Theorems {
  import opened Numbers
  import opened Bank
  import opened Royalties
  import opened RenewalQueue
  import opened Ledger
  import opened Histories
  import opened Effects
  import opened Scheduler
  import opened Rights
  import opened Nesting
  import opened Owners
  import opened Runs

  // ---------- Scheduler ----------

  /**
    No starvation. In every reachable state every enabled pair has an entry in a future bucket, at
    most 99 blocks after its expiry or after the block that follows its enabling; so no enabled
    subscription is ever overdue by more than that.
  */
  lemma {:induction false} NoStarvation(s: Chain, steps: seq<Step>, k: Key)
    requires IsGenesis(s) && k in Run(s, steps).autoRenew
    ensures var r := Run(s, steps);
            && k in r.subscriptions
            && (exists b: u32 :: r.now < b <= Deadline(r, k) && k in Bucket(r.queue, b))
            && r.now < Max(r.subscriptions[k].expiry, EnabledAt(r.log, k) + 1) + MAX_RENEWAL_SLOT_SEARCH - 1
  {
    AlwaysSound(s, steps);
    var r := Run(s, steps);
    assert Waiting(r, k, []);
    var b: u32 :| ScheduledAt(r, k, b);
  }

  /** The number of blocks in a run. */
  function Blocks(steps: seq<Step>): nat
    decreases |steps|
  {
    if steps == [] then 0 else Blocks(steps[..|steps| - 1]) + if steps[|steps| - 1].Block? then 1 else 0
  }

  ghost predicate SameTime(s: Chain, s': Chain) { s'.now == s.now }

  lemma {:induction false} EntryKeepsTime(s: Chain, k: Key, allow: Policy)
    ensures SameTime(s, RenewEntry(s, k, allow))
  {
    hide ExtendSubscription;
    hide Requeue;
    hide SetAutoRenew;
    hide SameTime;
    DropKeepsTime(s, k);
    if k in s.subscriptions {
      SwitchKeepsTime(s, k);
      RequeueKeepsTime(s, s, k, s.subscriptions[k].expiry);
      var r := ExtendSubscription(s, k.who, k, Env(allow, false, false));
      if r.Ok? && k.content in s.contents {
        ExtendKeepsTime(s, k, Env(allow, false, false), r.value);
        RequeueKeepsTime(s, r.value, k, SatAdd32(s.now, s.contents[k.content].period));
      }
    }
  }

  lemma {:induction false} DropKeepsTime(s: Chain, k: Key)
    ensures SameTime(s, s) && SameTime(s, s.(autoRenew := s.autoRenew - {k}))
  {
  }

  lemma {:induction false} SwitchKeepsTime(s: Chain, k: Key)
    requires k in s.subscriptions
    ensures SameTime(s, SetAutoRenew(s, k, false))
  {
  }

  lemma {:induction false} RequeueKeepsTime(s: Chain, mid: Chain, k: Key, at: u32)
    requires k in mid.subscriptions && SameTime(s, mid)
    ensures SameTime(s, Requeue(mid, k, at))
  {
    hide Enqueue;
    hide SetAutoRenew;
    if Enqueue(mid.queue, k, at).None? {
      SwitchKeepsTime(mid, k);
    }
  }

  lemma {:induction false} ExtendKeepsTime(s: Chain, k: Key, env: Env, s': Chain)
    requires ExtendSubscription(s, k.who, k, env) == Ok(s')
    ensures SameTime(s, s') && k in s'.subscriptions
  {
    hide ExtendSubscription;
    ExtendEffect(s, k.who, k, env, s');
  }

  lemma {:induction false} RenewAllKeepsTime(s: Chain, due: seq<Key>, allow: Policy)
    ensures SameTime(s, RenewAll(s, due, allow))
    decreases |due|
  {
    hide RenewEntry;
    if due == [] {
    } else {
      EntryKeepsTime(s, due[0], allow);
      RenewAllKeepsTime(RenewEntry(s, due[0], allow), due[1..], allow);
    }
  }

  lemma {:induction false} CallKeepsTime(s: Chain, who: Account, call: Call, env: Env, s': Chain)
    requires Sound(s) && Apply(s, who, call, env) == Ok(s')
    ensures s'.now == s.now
  {
    hide Apply;
    hide Sound;
    if call.EnableAutoRenew? || call.DisableAutoRenew? {
      SwitchEffect(s, who, call, env, s');
    } else {
      CallSound(s, who, call, env, s');
    }
  }

  lemma {:induction false} NextTime(s: Chain, step: Step)
    requires Sound(s)
    ensures Next(s, step).now == if step.Block? && s.now + 1 < U32_MAX then s.now + 1 else s.now
  {
    hide Apply;
    hide Sound;
    hide RenewAll;
    if step.Extrinsic? {
      if Apply(s, step.who, step.call, step.env).Ok? {
        CallKeepsTime(s, step.who, step.call, step.env, Next(s, step));
      }
    } else if step.Block? && s.now + 1 < U32_MAX {
      RenewAllKeepsTime(OpenBlock(s), Bucket(s.queue, s.now + 1), step.allow);
    }
  }

  /** Time passes with the blocks of a run and with nothing else. */
  lemma {:induction false} TimePasses(s: Chain, steps: seq<Step>)
    requires IsGenesis(s)
    ensures Run(s, steps).now == Min(Blocks(steps), U32_MAX - 1)
    decreases |steps|
  {
    hide Next;
    hide Sound;
    if steps == [] {
    } else {
      var before := steps[..|steps| - 1];
      TimePasses(s, before);
      AlwaysSound(s, before);
      NextTime(Run(s, before), steps[|steps| - 1]);
    }
  }

  /**
    An enabled subscription is decided in time. Once 99 blocks have passed since its expiry, and since
    the block after its enabling, it has been extended, or switched off; if it is still or again
    enabled without having been extended, it was switched on anew.
  */
  lemma {:induction false} DecidedInTime(s: Chain, steps: seq<Step>, n: nat, k: Key)
    requires IsGenesis(s) && n <= |steps| && k in Run(s, steps[..n]).autoRenew
    ensures k in Run(s, steps[..n]).subscriptions && k in Run(s, steps).subscriptions
    ensures var r, later := Run(s, steps[..n]), Run(s, steps);
            Max(r.subscriptions[k].expiry, EnabledAt(r.log, k) + 1) + MAX_RENEWAL_SLOT_SEARCH - 1 <= Blocks(steps) < U32_MAX ==>
              || k !in later.autoRenew
              || r.subscriptions[k].expiry < later.subscriptions[k].expiry
              || EnabledAt(r.log, k) < EnabledAt(later.log, k)
  {
    hide Run;
    NoStarvation(s, steps[..n], k);
    ExpiryNeverDecreases(s, steps, n);
    TimePasses(s, steps);
    if k in Run(s, steps).autoRenew {
      NoStarvation(s, steps, k);
    }
  }

  /**
    Inside the hook's loop, after any number `i` of entries of any block of any run: every enabled
    pair is in a future bucket before its deadline or still unprocessed, and the branches of the
    hook for a missing subscription and a missing content cannot be taken.
  */
  lemma {:induction false} MidHookConsistent(s: Chain, steps: seq<Step>, allow: Policy, i: nat)
    requires IsGenesis(s) && Run(s, steps).now + 1 < U32_MAX
    requires i <= |Bucket(Run(s, steps).queue, Run(s, steps).now + 1)|
    ensures var r := Run(s, steps);
            var due := Bucket(r.queue, r.now + 1);
            var mid := RenewAll(OpenBlock(r), due[..i], allow);
            && |due| <= MAX_RENEWALS_PER_BLOCK
            && (forall k :: k in mid.autoRenew ==> Waiting(mid, k, due[i..]))
            && (forall k :: k in mid.autoRenew ==>
                  k in mid.subscriptions && mid.subscriptions[k].autoRenew && k.content in mid.contents)
  {
    AlwaysSound(s, steps);
    var r := Run(s, steps);
    OpenBlockKeepsConsistent(r);
    RenewAllKeepsConsistent(OpenBlock(r), Bucket(r.queue, r.now + 1), i, allow);
  }

  /** Some block of the search window from `at` has room for the pair, or holds it. */
  ghost predicate WindowHasRoom(q: Queue, k: Key, at: u32) {
    exists b: u32 :: at <= b < at + MAX_RENEWAL_SLOT_SEARCH && Accepts(q, k, b)
  }

  /** What becomes of a due entry whose pair is enabled. */
  ghost predicate EntryOutcome(s: Chain, s': Chain, k: Key, allow: Policy)
    requires k in s.subscriptions && k.content in s.contents
  {
    var content, sub := s.contents[k.content], s.subscriptions[k];
    var payment := Pay(s.bank, k.who, content.creator, SplitsOf(s, k.content), content.subscriptionPrice, allow);
    var renewed := SatAdd32(s.now, content.period);
    && k in s'.subscriptions
    && if s.now < sub.expiry then
         // Extended in the meantime: nothing is charged, and it stays enabled exactly while it can be queued.
         && s'.bank == s.bank && s'.subscriptions[k].expiry == sub.expiry
         && (k in s'.autoRenew <==> WindowHasRoom(s.queue, k, sub.expiry))
       else if PaymentAccepted(s.bank, k.who, content.creator, SplitsOf(s, k.content), content.subscriptionPrice, allow) then
         // Paid: extended by a period from now, and it stays enabled exactly while it can be queued again.
         && payment == Ok(s'.bank) && s'.subscriptions[k].expiry == renewed && LastCharge(s'.log, k) == Some(s.now)
         && (k in s'.autoRenew <==> WindowHasRoom(s.queue, k, renewed))
       else
         // Not paid: nothing but the switch changes.
         s'.bank == s.bank && s'.subscriptions[k].expiry == sub.expiry && k !in s'.autoRenew
  }

  lemma {:induction false} EnqueuedIffRoom(q: Queue, k: Key, at: u32)
    requires Bounded(q)
    ensures Enqueue(q, k, at).Some? <==> WindowHasRoom(q, k, at)
  {
    hide Enqueue;
    EnqueueIsFirstFit(q, k, at);
  }

  /** Requeueing a pair costs nothing and keeps it enabled exactly if the window has room. */
  ghost predicate Requeued(s: Chain, s': Chain, k: Key, at: u32)
    requires k in s.subscriptions
  {
    && k in s'.subscriptions && s'.subscriptions[k].expiry == s.subscriptions[k].expiry && s'.bank == s.bank
    && LastCharge(s'.log, k) == LastCharge(s.log, k)
    && (k in s'.autoRenew <==> WindowHasRoom(s.queue, k, at))
  }

  lemma {:induction false} QueuedOutcome(s: Chain, k: Key, at: u32, q: Queue)
    requires k in s.subscriptions && k in s.autoRenew && WindowHasRoom(s.queue, k, at)
    ensures Requeued(s, s.(queue := q), k, at)
  {
    hide WindowHasRoom;
  }

  lemma {:induction false} SwitchedOffOutcome(s: Chain, k: Key, at: u32)
    requires k in s.subscriptions && !WindowHasRoom(s.queue, k, at)
    ensures Requeued(s, SetAutoRenew(s, k, false), k, at)
  {
    hide WindowHasRoom;
  }

  lemma {:induction false} RequeueOutcome(s: Chain, k: Key, at: u32)
    requires k in s.subscriptions && k in s.autoRenew && Bounded(s.queue)
    ensures Requeued(s, Requeue(s, k, at), k, at)
  {
    hide Enqueue;
    hide WindowHasRoom;
    hide Requeued;
    hide SetAutoRenew;
    EnqueuedIffRoom(s.queue, k, at);
    var q := Enqueue(s.queue, k, at);
    if q.Some? {
      QueuedOutcome(s, k, at, q.value);
    } else {
      SwitchedOffOutcome(s, k, at);
    }
  }

  /** An expired subscription is extended exactly if its payment is accepted. */
  lemma {:induction false} ExtendOutcome(s: Chain, k: Key, allow: Policy)
    requires k in s.subscriptions && k.content in s.contents && s.subscriptions[k].expiry <= s.now
    ensures var content, r := s.contents[k.content], ExtendSubscription(s, k.who, k, Env(allow, false, false));
            && (r.Ok? <==>
                  PaymentAccepted(s.bank, k.who, content.creator, SplitsOf(s, k.content), content.subscriptionPrice, allow))
            && (r.Ok? ==>
                  && Pay(s.bank, k.who, content.creator, SplitsOf(s, k.content), content.subscriptionPrice, allow) == Ok(r.value.bank)
                  && k in r.value.subscriptions && r.value.subscriptions[k].expiry == SatAdd32(s.now, content.period)
                  && LastCharge(r.value.log, k) == Some(s.now)
                  && r.value.queue == s.queue && r.value.autoRenew == s.autoRenew)
  {
    hide Pay;
    hide PaymentAccepted;
    hide SatAdd32;
    var content := s.contents[k.content];
    PaymentAcceptedIff(s.bank, k.who, content.creator, SplitsOf(s, k.content), content.subscriptionPrice, allow);
  }

  lemma {:induction false} DueEntryOutcome(s: Chain, k: Key, allow: Policy)
    requires k in s.subscriptions && s.subscriptions[k].autoRenew && k in s.autoRenew && k.content in s.contents
    requires Bounded(s.queue) && s.subscriptions[k].expiry <= s.now
    ensures EntryOutcome(s, RenewEntry(s, k, allow), k, allow)
  {
    hide Pay;
    hide PaymentAccepted;
    hide ExtendSubscription;
    hide Requeue;
    hide WindowHasRoom;
    hide Bounded;
    hide SatAdd32;
    hide LastCharge;
    ExtendOutcome(s, k, allow);
    var r := ExtendSubscription(s, k.who, k, Env(allow, false, false));
    if r.Ok? {
      RequeueOutcome(r.value, k, SatAdd32(s.now, s.contents[k.content].period));
    }
  }

  lemma {:induction false} EnabledEntryOutcome(s: Chain, k: Key, tail: seq<Key>, allow: Policy)
    requires Consistent(s, tail) && k in s.autoRenew
    ensures k in s.subscriptions && k.content in s.contents && EntryOutcome(s, RenewEntry(s, k, allow), k, allow)
  {
    hide Pay;
    hide Requeue;
    hide Waiting;
    hide WindowHasRoom;
    hide ExtendSubscription;
    hide PaymentAccepted;
    if s.now < s.subscriptions[k].expiry {
      RequeueOutcome(s, k, s.subscriptions[k].expiry);
    } else {
      DueEntryOutcome(s, k, allow);
    }
  }

  lemma {:induction false} DroppedEntry(s: Chain, k: Key, allow: Policy)
    requires k !in s.autoRenew
    ensures RenewEntry(s, k, allow) == s
  {
  }

  lemma {:induction false} RenewAllSnoc(s: Chain, due: seq<Key>, k: Key, allow: Policy)
    ensures RenewAll(s, due + [k], allow) == RenewEntry(RenewAll(s, due, allow), k, allow)
    decreases |due|
  {
    hide RenewEntry;
    if due == [] {
      assert due + [k] == [k];
    } else {
      assert (due + [k])[1..] == due[1..] + [k];
      RenewAllSnoc(RenewEntry(s, due[0], allow), due[1..], k, allow);
    }
  }

  /**
    Every entry of every block's bucket, at its turn: an entry of a pair no longer enabled changes
    nothing; an enabled one is charged and extended exactly if it has expired and its payment is
    accepted, and stays enabled exactly if it need not or did pay and its next slot was found.
  */
  lemma {:induction false} RenewalOutcome(s: Chain, steps: seq<Step>, allow: Policy, i: nat)
    requires IsGenesis(s) && Run(s, steps).now + 1 < U32_MAX
    requires i < |Bucket(Run(s, steps).queue, Run(s, steps).now + 1)|
    ensures var r := Run(s, steps);
            var due := Bucket(r.queue, r.now + 1);
            var mid, after := RenewAll(OpenBlock(r), due[..i], allow), RenewAll(OpenBlock(r), due[..i + 1], allow);
            && (due[i] !in mid.autoRenew ==> after == mid)
            && (due[i] in mid.autoRenew ==>
                  due[i] in mid.subscriptions && due[i].content in mid.contents && EntryOutcome(mid, after, due[i], allow))
  {
    hide Run;
    hide RenewAll;
    hide RenewEntry;
    hide Sound;
    hide Consistent;
    hide EntryOutcome;
    var r := Run(s, steps);
    var due := Bucket(r.queue, r.now + 1);
    AlwaysSound(s, steps);
    OpenBlockKeepsConsistent(r);
    RenewAllKeepsConsistent(OpenBlock(r), due, i, allow);
    RenewAllSnoc(OpenBlock(r), due[..i], due[i], allow);
    assert due[..i + 1] == due[..i] + [due[i]];
    var mid := RenewAll(OpenBlock(r), due[..i], allow);
    if due[i] in mid.autoRenew {
      EnabledEntryOutcome(mid, due[i], due[i..], allow);
    } else {
      DroppedEntry(mid, due[i], allow);
    }
  }

  /**
    The scheduler's stores agree with each other and with the log, whose last switch of a pair decides
    whether it is enabled, and no bucket up to the current block holds an entry.
  */
  lemma {:induction false} SchedulerConsistent(s: Chain, steps: seq<Step>, k: Key, b: u32)
    requires IsGenesis(s)
    ensures var r := Run(s, steps);
            && (k in r.autoRenew <==> k in r.subscriptions && r.subscriptions[k].autoRenew)
            && (k in r.autoRenew <==> SwitchedOn(r.log, k))
            && (k in r.autoRenew ==> k.content in r.contents && r.minPeriod <= r.contents[k.content].period)
            && (b <= r.now ==> Bucket(r.queue, b) == [])
            && |Bucket(r.queue, b)| <= MAX_RENEWALS_PER_BLOCK
  {
    AlwaysSound(s, steps);
  }

  /** Any two charges of one subscription, however they were made, are at least one period apart. */
  lemma {:induction false} ChargeSpacing(s: Chain, steps: seq<Step>)
    requires IsGenesis(s)
    ensures Spaced(Run(s, steps).log, Run(s, steps).contents)
  {
    AlwaysSound(s, steps);
  }

  ghost predicate ExpiriesGrow(s: Chain, s': Chain) {
    forall k :: k in s.subscriptions ==> k in s'.subscriptions && s.subscriptions[k].expiry <= s'.subscriptions[k].expiry
  }

  lemma {:induction false} RescheduledKeepsRights(s: Chain, s': Chain, k: Key)
    requires Rescheduled(s, s', k)
    ensures ExpiriesGrow(s, s') && s'.ownership == s.ownership
  {
    if Background(s, s') {
      assert ExpiriesGrow(s, s');
    } else {
      assert Switched(s, s', k, false);
    }
  }

  lemma {:induction false} EntryExpiriesGrow(s: Chain, k: Key, allow: Policy)
    requires Sound(s)
    ensures ExpiriesGrow(s, RenewEntry(s, k, allow))
  {
    var mid := EntryEffects(s, k, allow);
    if mid != s {
      RenewedIsQuiet(s, mid, k.who, k);
    }
    RescheduledKeepsRights(mid, RenewEntry(s, k, allow), k);
  }

  lemma {:induction false} RenewAllExpiriesGrow(s: Chain, due: seq<Key>, allow: Policy)
    requires Sound(s)
    ensures ExpiriesGrow(s, RenewAll(s, due, allow))
    decreases |due|
  {
    if due == [] {
    } else {
      EntryExpiriesGrow(s, due[0], allow);
      EntrySound(s, due[0], allow);
      RenewAllExpiriesGrow(RenewEntry(s, due[0], allow), due[1..], allow);
    }
  }

  lemma {:induction false} CallExpiriesGrow(s: Chain, who: Account, call: Call, env: Env, s': Chain)
    requires Sound(s) && Apply(s, who, call, env) == Ok(s')
    ensures ExpiriesGrow(s, s')
  {
    hide Apply;
    hide Sound;
    if call.EnableAutoRenew? || call.DisableAutoRenew? {
      SwitchEffect(s, who, call, env, s');
    } else {
      CallSound(s, who, call, env, s');
    }
  }

  lemma {:induction false} BlockExpiriesGrow(s: Chain, allow: Policy)
    requires Sound(s) && s.now + 1 < U32_MAX
    ensures ExpiriesGrow(s, NextBlock(s, allow))
  {
    OpenBlockSound(s);
    RenewAllExpiriesGrow(OpenBlock(s), Bucket(s.queue, s.now + 1), allow);
  }

  lemma {:induction false} SameSubscriptionsGrow(s: Chain, s': Chain)
    requires s'.subscriptions == s.subscriptions
    ensures ExpiriesGrow(s, s')
  {
  }

  lemma {:induction false} NextExpiriesGrow(s: Chain, step: Step)
    requires Sound(s)
    ensures ExpiriesGrow(s, Next(s, step))
  {
    if step.Extrinsic? && Apply(s, step.who, step.call, step.env).Ok? {
      CallExpiriesGrow(s, step.who, step.call, step.env, Next(s, step));
    } else if step.Block? && s.now + 1 < U32_MAX {
      BlockExpiriesGrow(s, step.allow);
    } else {
      SameSubscriptionsGrow(s, Next(s, step));
    }
  }

  /** Between any two moments of a run no subscription disappears and no expiry decreases. */
  lemma {:induction false} ExpiryNeverDecreases(s: Chain, steps: seq<Step>, n: nat)
    requires IsGenesis(s) && n <= |steps|
    ensures ExpiriesGrow(Run(s, steps[..n]), Run(s, steps))
    decreases |steps|
  {
    if n == |steps| {
      assert steps[..n] == steps;
    } else {
      var before := steps[..|steps| - 1];
      ExpiryNeverDecreases(s, before, n);
      assert before[..n] == steps[..n];
      AlwaysSound(s, before);
      NextExpiriesGrow(Run(s, before), steps[|steps| - 1]);
    }
  }

  // ---------- State refines history ----------

  /** A payment at block `t` is on the log and covers block `now`. */
  ghost predicate PaidFor(h: History, k: Key, period: u32, now: u32, t: u32) {
    ChargedAt(h, k, t) && now < t + period
  }

  /** The access decision computed from the log alone. */
  ghost function Decision(h: History, contents: map<u32, Content>, k: Key, now: u32): Option<RightsType> {
    if Owns(h, k) then Some(OwnershipRight)
    else if k.content in contents && exists t: u32 :: PaidFor(h, k, contents[k.content].period, now, t) then
      Some(SubscriptionRight)
    else if Bought(h, k) > Used(h, k) + Clipped(h, k) then Some(PayPerViewRight)
    else None
  }

  lemma {:induction false} SubscribedByHistory(s: Chain, k: Key)
    requires Recorded(s)
    ensures (k in s.subscriptions && s.now < s.subscriptions[k].expiry) <==>
            (k.content in s.contents && exists t: u32 :: PaidFor(s.log, k, s.contents[k.content].period, s.now, t))
  {
    assert SubscriptionRecorded(s, k) by { assert KeyRecorded(s, k); }
    if k in s.subscriptions && s.now < s.subscriptions[k].expiry {
      LastChargeHappened(s.log, k);
      assert PaidFor(s.log, k, s.contents[k.content].period, s.now, LastCharge(s.log, k).value);
    }
    if k.content in s.contents {
      forall t: u32 | PaidFor(s.log, k, s.contents[k.content].period, s.now, t)
        ensures k in s.subscriptions && s.now < s.subscriptions[k].expiry
      {
        LastChargeIsLatest(s.log, s.contents, k, t);
      }
    }
  }

  lemma {:induction false} RecordedDecides(s: Chain, k: Key)
    requires Recorded(s)
    ensures AccessRights(s, k) == Decision(s.log, s.contents, k, s.now)
  {
    assert KeyRecorded(s, k);
    SubscribedByHistory(s, k);
  }

  /** In every reachable state the stored rights decide access exactly as the whole log does. */
  lemma {:induction false} AccessRefinesHistory(s: Chain, steps: seq<Step>, k: Key)
    requires IsGenesis(s)
    ensures var r := Run(s, steps); AccessRights(r, k) == Decision(r.log, r.contents, k, r.now)
  {
    AlwaysSound(s, steps);
    RecordedDecides(Run(s, steps), k);
  }

  /** In no reachable state does anybody hold a right to an unknown content. */
  lemma {:induction false} NoRightsToUnknown(s: Chain, steps: seq<Step>, k: Key)
    requires IsGenesis(s) && k.content !in Run(s, steps).contents
    ensures AccessRights(Run(s, steps), k) == None
  {
    AlwaysSound(s, steps);
  }

  function StoredViews(s: Chain, k: Key): nat { if k in s.viewPacks then s.viewPacks[k].views else 0 }

  /**
    Stored views never exceed views bought less views used, and equal them exactly while that
    balance has never passed 2^32 - 1.
  */
  lemma {:induction false} ViewsRefineHistory(s: Chain, steps: seq<Step>, k: Key)
    requires IsGenesis(s)
    ensures var r := Run(s, steps);
            && StoredViews(r, k) <= Bought(r.log, k) - Used(r.log, k)
            && (StoredViews(r, k) == Bought(r.log, k) - Used(r.log, k) <==> NeverPassed(r.log, k))
  {
    AlwaysSound(s, steps);
    var r := Run(s, steps);
    assert KeyRecorded(r, k);
    ClippedIffPassed(r.log, k);
  }

  /**
    The rule "views remain while bought exceed used" holds of a pair exactly while some of its views
    remain or its balance has never passed 2^32 - 1.
  */
  lemma {:induction false} ViewAccessIff(s: Chain, steps: seq<Step>, k: Key)
    requires IsGenesis(s)
    ensures var r := Run(s, steps);
            (StoredViews(r, k) > 0 <==> Bought(r.log, k) > Used(r.log, k)) <==>
            (StoredViews(r, k) > 0 || NeverPassed(r.log, k))
  {
    ViewsRefineHistory(s, steps, k);
  }

  /** A purchase adds all the views it charges for if and only if the view pack has room for them. */
  lemma {:induction false} PurchaseAddsAllIff(s: Chain, payer: Account, k: Key, views: u32, env: Env, s': Chain)
    requires GrantViews(s, payer, k, views, env) == Ok(s')
    ensures StoredViews(s', k) == StoredViews(s, k) + views <==> StoredViews(s, k) + views <= U32_MAX
    ensures forall k' :: k' != k ==> StoredViews(s', k') == StoredViews(s, k')
  {
    hide GrantViews;
    GrantViewsEffect(s, payer, k, views, env, s');
  }

  // ---------- Nesting ----------

  /**
    In every reachable state `Parent` entries and records of rights correspond one to one; child
    items hang under item 0 of their content's collection, are numbered in [1, NextItemId) and were
    never minted before; distinct contents have distinct collections.
  */
  lemma {:induction false} NestingBijection(s: Chain, steps: seq<Step>)
    requires IsGenesis(s)
    ensures var r := Run(s, steps);
            && OneToOne(Items(r), r.parent)
            && (forall i :: i in r.parent ==> r.parent[i] == (i.0, 0) && 1 <= i.1 < ItemCounter(r, i.0))
            && MintsDistinct(r.log)
            && (forall c1, c2 :: c1 in r.contents && c2 in r.contents && c1 != c2 ==>
                  r.contents[c1].collection != r.contents[c2].collection)
  {
    AlwaysSound(s, steps);
    var r := Run(s, steps);
    forall c1, c2 | c1 in r.contents && c2 in r.contents && c1 != c2
      ensures r.contents[c1].collection != r.contents[c2].collection
    {
      assert Collection(r, c1) != Collection(r, c2);
    }
  }

  // ---------- Ownership ----------

  /** In every reachable state a content has exactly as many owners as it had ownership sales. */
  lemma {:induction false} OwnershipConserved(s: Chain, steps: seq<Step>, c: u32)
    requires IsGenesis(s)
    ensures |OwnersOf(Run(s, steps).ownership, c)| == OwnershipSales(Run(s, steps).log, c)
  {
    AlwaysSound(s, steps);
  }

  lemma {:induction false} EntryKeepsOwnership(s: Chain, k: Key, allow: Policy)
    ensures RenewEntry(s, k, allow).ownership == s.ownership
  {
    var mid := EntryEffects(s, k, allow);
    RescheduledKeepsRights(mid, RenewEntry(s, k, allow), k);
  }

  lemma {:induction false} RenewAllKeepsOwnership(s: Chain, due: seq<Key>, allow: Policy)
    ensures RenewAll(s, due, allow).ownership == s.ownership
    decreases |due|
  {
    if due == [] {
    } else {
      EntryKeepsOwnership(s, due[0], allow);
      RenewAllKeepsOwnership(RenewEntry(s, due[0], allow), due[1..], allow);
    }
  }

  lemma {:induction false} OnlyTransfersRemoveOwners(s: Chain, who: Account, call: Call, env: Env, k: Key, s': Chain)
    requires Apply(s, who, call, env) == Ok(s') && k in s.ownership && k !in s'.ownership
    ensures who == k.who && (call.TransferOwnership? || call.XcmTransferOwnership?) && call.content == k.content
  {
    hide GrantSubscription;
    hide ExtendSubscription;
    hide GrantViews;
    hide GrantOwnership;
    hide MoveOwnership;
    hide UseView;
    hide Subscribed;
    hide Renewed;
    hide PackGrown;
    hide PackStarted;
    hide PackReduced;
    hide PackFinished;
    hide OwnershipSold;
    LocalIsCrossChain(s, who, call, env);
    var x := AsCrossChain(who, call);
    if x.XcmSubscribe? {
      GrantSubscriptionEffect(s, who, Key(x.content, x.beneficiary), env, s');
    } else if x.XcmPurchaseViews? {
      GrantViewsEffect(s, who, Key(x.content, x.beneficiary), x.views, env, s');
    } else if x.XcmPurchaseOwnership? {
      GrantOwnershipEffect(s, who, Key(x.content, x.beneficiary), env, s');
    } else if x.XcmTransferOwnership? {
      MoveOwnershipEffect(s, x.content, x.src, x.dst, env, s');
    } else if x.XcmRenewSubscription? {
      ExtendEffect(s, who, Key(x.content, x.beneficiary), env, s');
    } else if x.ConsumeView? {
      UseViewEffect(s, Key(x.content, who), env, s');
    } else if x.ConsumeViewFor? {
      UseViewEffect(s, Key(x.content, x.viewer), env, s');
    }
  }

  /** An owner's record disappears only in a transfer signed by that owner. */
  lemma {:induction false} OwnershipAuthority(s: Chain, step: Step, k: Key)
    requires k in s.ownership && k !in Next(s, step).ownership
    ensures step.Extrinsic? && step.who == k.who && step.call.content == k.content
    ensures step.call.TransferOwnership? || step.call.XcmTransferOwnership?
  {
    match step
    case Extrinsic(who, call, env) => OnlyTransfersRemoveOwners(s, who, call, env, k, Next(s, step));
    case Block(allow) => RenewAllKeepsOwnership(OpenBlock(s), Bucket(s.queue, s.now + 1), allow);
    case Outside(_, _) =>
  }

  // ---------- Local and cross-chain calls ----------

  function CrossChainStep(step: Step): Step {
    match step
    case Extrinsic(who, call, env) => Extrinsic(who, AsCrossChain(who, call), env)
    case _ => step
  }

  function CrossChainSteps(steps: seq<Step>): (r: seq<Step>)
    ensures |r| == |steps|
    decreases |steps|
  {
    if steps == [] then [] else CrossChainSteps(steps[..|steps| - 1]) + [CrossChainStep(steps[|steps| - 1])]
  }

  /** The errors of the extrinsics of a run, in order; None for a success. */
  function Verdicts(s: Chain, steps: seq<Step>): seq<Option<Error>>
    decreases |steps|
  {
    if steps == [] then []
    else
      var before := steps[..|steps| - 1];
      Verdicts(s, before) +
      match steps[|steps| - 1]
      case Extrinsic(who, call, env) =>
        (match Apply(Run(s, before), who, call, env)
         case Ok(_) => [None]
         case Err(e) => [Some(e)])
      case _ => []
  }

  /**
    Replacing every local call of a run by its cross-chain form with the signer as beneficiary
    changes neither the outcome of any call nor the final storage and balances.
  */
  lemma {:induction false} LocalRunsAreCrossChainRuns(s: Chain, steps: seq<Step>)
    ensures Run(s, CrossChainSteps(steps)) == Run(s, steps)
    ensures Verdicts(s, CrossChainSteps(steps)) == Verdicts(s, steps)
    decreases |steps|
  {
    if steps == [] {
    } else {
      var n := |steps| - 1;
      var before, last := steps[..n], steps[n];
      LocalRunsAreCrossChainRuns(s, before);
      var x := CrossChainSteps(steps);
      assert x[..n] == CrossChainSteps(before) && x[n] == CrossChainStep(last);
      if last.Extrinsic? {
        LocalIsCrossChain(Run(s, before), last.who, last.call, last.env);
      }
    }
  }
}
