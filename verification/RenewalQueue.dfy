/** The renewal queue: bounded buckets by block number and the first-fit search over them. */
module RenewalQueue {
  import opened Numbers
  import opened Bank

  const MAX_RENEWALS_PER_BLOCK := 10
  const MAX_RENEWAL_SLOT_SEARCH := 100

  /** A (content, account) pair. */
  datatype Key = Key(content: u32, who: Account)

  type Queue = map<u32, seq<Key>>

  function Bucket(q: Queue, b: u32): seq<Key> { if b in q then q[b] else [] }

  predicate Bounded(q: Queue) { forall b :: b in q ==> |q[b]| <= MAX_RENEWALS_PER_BLOCK }

  /** The bucket can take the pair, or holds it already. */
  predicate Accepts(q: Queue, k: Key, b: u32) { k in Bucket(q, b) || |Bucket(q, b)| < MAX_RENEWALS_PER_BLOCK }

  function Place(q: Queue, k: Key, b: u32): Queue {
    if k in Bucket(q, b) then q else q[b := Bucket(q, b) + [k]]
  }

  /** End of the search window of `at`: 100 blocks, within the range of block numbers. */
  function WindowEnd(at: u32): int { Min(at + MAX_RENEWAL_SLOT_SEARCH, U32_MAX + 1) }

  /** First block of [lo, hi) whose bucket accepts the pair. */
  function FirstFit(q: Queue, k: Key, lo: int, hi: int): Option<u32>
    requires 0 <= lo <= hi <= U32_MAX + 1
    decreases hi - lo
  {
    if lo == hi then None
    else if Accepts(q, k, lo) then Some(lo)
    else FirstFit(q, k, lo + 1, hi)
  }

  function Slot(q: Queue, k: Key, at: u32): Option<u32> { FirstFit(q, k, at, WindowEnd(at)) }

  function Enqueue(q: Queue, k: Key, at: u32): Option<Queue> {
    match Slot(q, k, at)
    case None => None
    case Some(b) => Some(Place(q, k, b))
  }

  /** `slot` is the earliest block of the search window of `at` that accepts the pair. */
  ghost predicate IsFirstFit(q: Queue, k: Key, at: u32, slot: u32) {
    && at <= slot < at + MAX_RENEWAL_SLOT_SEARCH
    && Accepts(q, k, slot)
    && forall b: u32 :: at <= b < slot ==> !Accepts(q, k, b)
  }

  lemma {:induction false} FirstFitMeaning(q: Queue, k: Key, lo: int, hi: int)
    requires 0 <= lo <= hi <= U32_MAX + 1
    ensures match FirstFit(q, k, lo, hi)
            case Some(s) => lo <= s < hi && Accepts(q, k, s) && forall b: u32 :: lo <= b < s ==> !Accepts(q, k, b)
            case None => forall b: u32 :: lo <= b < hi ==> !Accepts(q, k, b)
    decreases hi - lo
  {
    if lo < hi && !Accepts(q, k, lo) {
      FirstFitMeaning(q, k, lo + 1, hi);
    }
  }

  lemma {:induction false} SlotMeaning(q: Queue, k: Key, at: u32)
    ensures match Slot(q, k, at)
            case Some(s) => IsFirstFit(q, k, at, s)
            case None => forall b: u32 :: at <= b < at + MAX_RENEWAL_SLOT_SEARCH ==> !Accepts(q, k, b)
  {
    FirstFitMeaning(q, k, at, WindowEnd(at));
  }

  /**
    Enqueueing succeeds exactly when some block of the window accepts the pair; it then adds the
    pair at the first such block and changes no other bucket.
  */
  lemma {:induction false} EnqueueIsFirstFit(q: Queue, k: Key, at: u32)
    requires Bounded(q)
    ensures Enqueue(q, k, at).Some? <==>
            exists b: u32 :: at <= b < at + MAX_RENEWAL_SLOT_SEARCH && Accepts(q, k, b)
    ensures Enqueue(q, k, at).Some? ==>
              var s, q' := Slot(q, k, at).value, Enqueue(q, k, at).value;
              && IsFirstFit(q, k, at, s)
              && Bounded(q')
              && Bucket(q', s) == Bucket(q, s) + (if k in Bucket(q, s) then [] else [k])
              && k in Bucket(q', s)
              && (forall b: u32 :: b != s ==> Bucket(q', b) == Bucket(q, b))
              && q'.Keys == q.Keys + {s}
  {
    SlotMeaning(q, k, at);
  }

  /** What happens to the queue between two enqueues of a pair: other enqueues and processed blocks. */
  datatype QueueOp = Put(key: Key, at: u32) | Take(block: u32)

  function ApplyOp(q: Queue, op: QueueOp): Queue {
    match op
    case Put(k, at) => (match Enqueue(q, k, at) case Some(q') => q' case None => q)
    case Take(b) => q - {b}
  }

  function ApplyOps(q: Queue, ops: seq<QueueOp>): Queue
    decreases |ops|
  {
    if ops == [] then q else ApplyOps(ApplyOp(q, ops[0]), ops[1..])
  }

  /** From `lo` on, every bucket of `q` is a prefix of the same bucket of `q'`. */
  ghost predicate GrowsFrom(q: Queue, q': Queue, lo: u32) {
    && Bounded(q')
    && forall b: u32 :: lo <= b ==> Bucket(q, b) <= Bucket(q', b)
  }

  lemma {:induction false} UnprocessedBucketsGrow(q: Queue, ops: seq<QueueOp>, lo: u32)
    requires Bounded(q)
    requires forall op :: op in ops && op.Take? ==> op.block < lo
    ensures GrowsFrom(q, ApplyOps(q, ops), lo)
    decreases |ops|
  {
    if ops == [] {
    } else {
      var q1 := ApplyOp(q, ops[0]);
      assert ops[0] in ops;
      assert GrowsFrom(q, q1, lo) by {
        if ops[0].Put? {
          EnqueueIsFirstFit(q, ops[0].key, ops[0].at);
        }
      }
      UnprocessedBucketsGrow(q1, ops[1..], lo);
    }
  }

  /** `slot` is the first fit of any start between `at` and `slot` in any grown queue. */
  lemma {:induction false} FirstFitSurvives(q: Queue, q': Queue, k: Key, at: u32, slot: u32, start: u32)
    requires Bounded(q) && IsFirstFit(q, k, at, slot) && at <= start <= slot
    requires GrowsFrom(Place(q, k, slot), q', start)
    ensures IsFirstFit(q', k, start, slot) && k in Bucket(q', slot)
  {
    var p := Place(q, k, slot);
    assert k in Bucket(p, slot);
    assert Bucket(p, slot) <= Bucket(q', slot);
    forall b: u32 | start <= b < slot
      ensures !Accepts(q', k, b)
    {
      assert !Accepts(q, k, b);
      assert Bucket(p, b) == Bucket(q, b);
      assert Bucket(p, b) <= Bucket(q', b);
      assert Bucket(q', b) == Bucket(q, b);
    }
  }

  lemma {:induction false} FirstFitIsUnique(q: Queue, k: Key, at: u32, slot: u32)
    requires IsFirstFit(q, k, at, slot)
    ensures Slot(q, k, at) == Some(slot)
  {
    SlotMeaning(q, k, at);
  }

  /**
    Re-enqueueing is stable: once placed, and after any other enqueues and any processed blocks
    before `start`, enqueueing the pair again from `start` up to its slot changes nothing and
    finds the same slot.
  */
  lemma {:induction false} ReEnqueueIsNoOp(q: Queue, k: Key, at: u32, ops: seq<QueueOp>, start: u32)
    requires Bounded(q) && Slot(q, k, at).Some?
    requires at <= start <= Slot(q, k, at).value
    requires forall op :: op in ops && op.Take? ==> op.block < start
    ensures var later := ApplyOps(Enqueue(q, k, at).value, ops);
            && Enqueue(later, k, start) == Some(later)
            && Slot(later, k, start) == Slot(q, k, at)
  {
    EnqueueIsFirstFit(q, k, at);
    var slot := Slot(q, k, at).value;
    var placed := Enqueue(q, k, at).value;
    var later := ApplyOps(placed, ops);
    UnprocessedBucketsGrow(placed, ops, start);
    FirstFitSurvives(q, later, k, at, slot, start);
    FirstFitIsUnique(later, k, start, slot);
  }
}
