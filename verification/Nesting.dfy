/** The nesting index `Parent` and the records of rights are in one-to-one correspondence. */
module Nesting {
  import opened Numbers
  import opened Bank
  import opened RenewalQueue
  import opened Ledger
  import opened Histories
  import opened Effects

  /** A record of a right: in one of the three stores, for one pair. */
  datatype Right = SubscriptionOf(key: Key) | PackOf(key: Key) | OwnershipOf(key: Key)

  /** An NFT: its collection and its id in it. */
  type Item = (u32, u32)

  function Collection(s: Chain, c: u32): u32 { if c in s.contents then s.contents[c].collection else 0 }

  predicate Held(s: Chain, r: Right) {
    match r
    case SubscriptionOf(k) => k in s.subscriptions
    case PackOf(k) => k in s.viewPacks
    case OwnershipOf(k) => k in s.ownership
  }

  function ChildId(s: Chain, r: Right): u32
    requires Held(s, r)
  {
    match r
    case SubscriptionOf(k) => s.subscriptions[k].child
    case PackOf(k) => s.viewPacks[k].child
    case OwnershipOf(k) => s.ownership[k]
  }

  /** The child item of every record: the collection of its content and the item id it stores. */
  ghost function Items(s: Chain): imap<Right, Item> {
    imap r | Held(s, r) :: (Collection(s, r.key.content), ChildId(s, r))
  }

  /** Records and nesting entries are in bijection. */
  ghost predicate OneToOne(items: imap<Right, Item>, parent: map<Item, Item>) {
    && (forall r1, r2 :: r1 in items && r2 in items && items[r1] == items[r2] ==> r1 == r2)
    && (forall r :: r in items ==> items[r] in parent)
    && (forall i :: i in parent ==> i in items.Values)
  }

  lemma {:induction false} AddOneToOne(items: imap<Right, Item>, parent: map<Item, Item>, r: Right, i: Item, p: Item)
    requires OneToOne(items, parent) && r !in items && i !in parent
    ensures OneToOne(items[r := i], parent[i := p])
  {
    var items' := items[r := i];
    assert items'[r] == i;
    forall j | j in parent
      ensures j in items'.Values
    {
      var r' :| r' in items && items[r'] == j;
      assert items'[r'] == j;
    }
  }

  lemma {:induction false} RemoveOneToOne(items: imap<Right, Item>, parent: map<Item, Item>, r: Right)
    requires OneToOne(items, parent) && r in items
    ensures OneToOne(items - {r}, parent - {items[r]})
  {
    var items' := items - {r};
    forall i | i in parent && i != items[r]
      ensures i in items'.Values
    {
      var r' :| r' in items && items[r'] == i;
      assert items'[r'] == i;
    }
  }

  /** Every nested item hangs under item 0 of its own collection and is numbered in [1, NextItemId). */
  ghost predicate ItemsNumbered(s: Chain) {
    forall i :: i in s.parent ==> s.parent[i] == (i.0, 0) && i.0 < s.nextCollection && 1 <= i.1 < ItemCounter(s, i.0)
  }

  /** Collections are allocated below the counter, one per content; item 0 is the content item. */
  ghost predicate CollectionsDistinct(s: Chain) {
    && (forall c :: c in s.contents ==>
          s.contents[c].item == 0 && Collection(s, c) < s.nextCollection && 1 <= ItemCounter(s, Collection(s, c)))
    && (forall c1, c2 :: c1 in s.contents && c2 in s.contents && Collection(s, c1) == Collection(s, c2) ==> c1 == c2)
  }

  /** Item ids are handed out once: every id ever minted is below the counter. */
  ghost predicate MintsCounted(s: Chain) {
    && MintsDistinct(s.log)
    && forall collection: u32, item: u32 :: WasMinted(s.log, collection, item) ==>
         collection < s.nextCollection && item < ItemCounter(s, collection)
  }

  ghost predicate Nested(s: Chain) {
    && CollectionsDistinct(s) && ItemsNumbered(s) && MintsCounted(s)
    && OneToOne(Items(s), s.parent)
  }

  /** The log gained at most one entry, and not one for a minted item. */
  ghost predicate NothingMinted(s: Chain, s': Chain) {
    s'.log == s.log || (s'.log.Then? && s'.log.past == s.log && !s'.log.last.Minted?)
  }

  lemma {:induction false} NothingMintedKeepsCount(s: Chain, s': Chain)
    requires MintsCounted(s) && NothingMinted(s, s')
    requires s.nextCollection <= s'.nextCollection
    requires forall c: u32 :: c < s.nextCollection ==> ItemCounter(s', c) == ItemCounter(s, c)
    ensures MintsCounted(s')
  {
    assert forall c: u32, i: u32 :: WasMinted(s'.log, c, i) ==> WasMinted(s.log, c, i);
  }

  /** The next item of a content's collection is nested and recorded. */
  ghost predicate RecordAdded(s: Chain, s': Chain, r: Right) {
    && CanNest(s, r.key) && r !in Items(s)
    && s'.contents == s.contents && s'.nextCollection == s.nextCollection
    && var col := Collection(s, r.key.content);
       var child := ItemCounter(s, col);
       && Items(s') == Items(s)[r := (col, child)]
       && s'.parent == s.parent[(col, child) := (col, 0)]
       && s'.nextItem == s.nextItem[col := child + 1]
       && s'.log.Then? && !s'.log.last.Minted?
       && s'.log.past == Then(s.log, Minted(col, child))
  }

  lemma {:induction false} MintIsNew(s: Chain, s': Chain, r: Right)
    requires CollectionsDistinct(s) && MintsCounted(s) && RecordAdded(s, s', r)
    ensures MintsCounted(s')
  {
    var col := Collection(s, r.key.content);
    var child := ItemCounter(s, col);
    assert !WasMinted(s.log, col, child);
    forall collection: u32, item: u32 | WasMinted(s'.log, collection, item)
      ensures collection < s'.nextCollection && item < ItemCounter(s', collection)
    {
      assert WasMinted(s'.log.past, collection, item);
      assert (collection == col && item == child) || WasMinted(s.log, collection, item);
    }
  }

  lemma {:induction false} RecordAddedNumbered(s: Chain, s': Chain, r: Right)
    requires CollectionsDistinct(s) && ItemsNumbered(s) && RecordAdded(s, s', r)
    ensures CollectionsDistinct(s') && ItemsNumbered(s')
    ensures (Collection(s, r.key.content), ItemCounter(s, Collection(s, r.key.content))) !in s.parent
  {
    hide Items;
  }

  lemma {:induction false} RecordAddedNested(s: Chain, s': Chain, r: Right)
    requires Nested(s) && RecordAdded(s, s', r)
    ensures Nested(s')
  {
    var col := Collection(s, r.key.content);
    MintIsNew(s, s', r);
    RecordAddedNumbered(s, s', r);
    AddOneToOne(Items(s), s.parent, r, (col, ItemCounter(s, col)), (col, 0));
  }

  /** A record and its nesting entry disappear together. */
  ghost predicate RecordRemoved(s: Chain, s': Chain, r: Right) {
    && NothingMinted(s, s')
    && s'.contents == s.contents && s'.nextItem == s.nextItem && s'.nextCollection == s.nextCollection
    && r in Items(s) && Items(s') == Items(s) - {r} && s'.parent == s.parent - {Items(s)[r]}
  }

  lemma {:induction false} RecordRemovedNumbered(s: Chain, s': Chain, r: Right)
    requires CollectionsDistinct(s) && ItemsNumbered(s) && RecordRemoved(s, s', r)
    ensures CollectionsDistinct(s') && ItemsNumbered(s')
  {
    hide Items;
  }

  lemma {:induction false} RecordRemovedNested(s: Chain, s': Chain, r: Right)
    requires Nested(s) && RecordRemoved(s, s', r)
    ensures Nested(s')
  {
    hide OneToOne;
    hide MintsCounted;
    hide Items;
    NothingMintedKeepsCount(s, s');
    RemoveOneToOne(Items(s), s.parent, r);
    RecordRemovedNumbered(s, s', r);
  }

  /** No record appears, disappears or changes its item. */
  ghost predicate SameRecords(s: Chain, s': Chain) {
    && NothingMinted(s, s') && s.nextCollection <= s'.nextCollection
    && s'.contents == s.contents && s'.nextItem == s.nextItem && s'.parent == s.parent && Items(s') == Items(s)
  }

  lemma {:induction false} SameRecordsNested(s: Chain, s': Chain)
    requires Nested(s) && SameRecords(s, s')
    ensures Nested(s')
  {
    NothingMintedKeepsCount(s, s');
  }

  lemma {:induction false} SameItems(s: Chain, s': Chain)
    requires forall r :: Held(s', r) == Held(s, r)
    requires forall r :: Held(s, r) ==> ChildId(s', r) == ChildId(s, r) && Collection(s', r.key.content) == Collection(s, r.key.content)
    ensures Items(s') == Items(s)
  {
  }

  lemma {:induction false} OneItemAdded(s: Chain, s': Chain, r: Right)
    requires s'.contents == s.contents && !Held(s, r) && Held(s', r)
    requires forall r' :: r' != r ==> Held(s', r') == Held(s, r')
    requires forall r' :: r' != r && Held(s, r') ==> ChildId(s', r') == ChildId(s, r')
    ensures r !in Items(s) && Items(s') == Items(s)[r := (Collection(s, r.key.content), ChildId(s', r))]
  {
  }

  lemma {:induction false} RenewedRecords(s: Chain, s': Chain, payer: Account, k: Key)
    requires Renewed(s, s', payer, k)
    ensures SameRecords(s, s')
  {
    SameItems(s, s');
  }

  lemma {:induction false} PackCountRecords(s: Chain, s': Chain, k: Key, views: u32)
    requires PackGrown(s, s', k, views) || PackReduced(s, s', k)
    ensures SameRecords(s, s')
  {
    SameItems(s, s');
  }

  lemma {:induction false} ScheduleRecords(s: Chain, s': Chain, k: Key, on: bool)
    requires Background(s, s') || Switched(s, s', k, on)
    ensures SameRecords(s, s')
  {
    SameItems(s, s');
  }

  lemma {:induction false} SubscribedRecord(s: Chain, s': Chain, payer: Account, k: Key)
    requires Subscribed(s, s', payer, k) && s.contents[k.content].item == 0
    ensures RecordAdded(s, s', SubscriptionOf(k))
  {
    OneItemAdded(s, s', SubscriptionOf(k));
    hide Items;
  }

  lemma {:induction false} PackStartedRecord(s: Chain, s': Chain, k: Key, views: u32)
    requires PackStarted(s, s', k, views) && s.contents[k.content].item == 0
    ensures RecordAdded(s, s', PackOf(k))
  {
    OneItemAdded(s, s', PackOf(k));
    hide Items;
  }

  lemma {:induction false} OwnershipSoldRecord(s: Chain, s': Chain, k: Key)
    requires OwnershipSold(s, s', k) && s.contents[k.content].item == 0
    ensures RecordAdded(s, s', OwnershipOf(k))
  {
    OneItemAdded(s, s', OwnershipOf(k));
    hide Items;
  }

  lemma {:induction false} PackFinishedRecord(s: Chain, s': Chain, k: Key)
    requires PackFinished(s, s', k)
    ensures RecordRemoved(s, s', PackOf(k))
  {
  }

  /** The chain between the burn of the old owner's item and the mint of the new one. */
  ghost function WithoutOwner(s: Chain, k: Key): Chain
    requires k in s.ownership
  {
    s.(parent := s.parent - {(Collection(s, k.content), s.ownership[k])}, ownership := s.ownership - {k})
  }

  lemma {:induction false} WithoutOwnerRecord(s: Chain, k: Key)
    requires k in s.ownership
    ensures RecordRemoved(s, WithoutOwner(s, k), OwnershipOf(k))
  {
    var mid := WithoutOwner(s, k);
    assert forall r :: r != OwnershipOf(k) ==> Held(mid, r) == Held(s, r);
    assert Items(mid) == Items(s) - {OwnershipOf(k)};
  }

  lemma {:induction false} OwnershipPassedRecord(s: Chain, s': Chain, c: u32, src: Account, dst: Account)
    requires OwnershipPassed(s, s', c, src, dst) && s.contents[c].item == 0
    ensures RecordAdded(WithoutOwner(s, Key(c, src)), s', OwnershipOf(Key(c, dst)))
  {
    OneItemAdded(WithoutOwner(s, Key(c, src)), s', OwnershipOf(Key(c, dst)));
    hide Items;
  }

  lemma {:induction false} RegisteredItems(s: Chain, s': Chain, content: Content)
    requires Registered(s, s', content)
    requires forall c :: c in s.contents ==> c < s.nextContent
    requires forall k :: k in s.subscriptions || k in s.viewPacks || k in s.ownership ==> k.content in s.contents
    ensures Items(s') == Items(s)
  {
    SameItems(s, s');
  }

  lemma {:induction false} RegisteredCollections(s: Chain, s': Chain, content: Content)
    requires Registered(s, s', content) && forall c :: c in s.contents ==> c < s.nextContent
    requires CollectionsDistinct(s) && ItemsNumbered(s) && MintsCounted(s)
    ensures CollectionsDistinct(s') && ItemsNumbered(s') && MintsCounted(s')
  {
    NothingMintedKeepsCount(s, s');
    assert forall c :: c in s.contents ==> Collection(s', c) == Collection(s, c);
  }
}
