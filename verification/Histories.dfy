/** What the log of events says about charges, views, ownership and minted items. */
module Histories {
  import opened Numbers
  import opened RenewalQueue
  import opened Ledger

  /** Block of the last event that switched auto-renewal on for the pair; 0 if none. */
  function EnabledAt(h: History, k: Key): u32 {
    match h
    case Genesis => 0
    case Then(past, e) => if e.AutoRenewOn? && e.key == k then e.at else EnabledAt(past, k)
  }

  /** The last event that switched auto-renewal for the pair switched it on. */
  predicate SwitchedOn(h: History, k: Key) {
    match h
    case Genesis => false
    case Then(past, AutoRenewOn(k', _)) => k' == k || SwitchedOn(past, k)
    case Then(past, AutoRenewOff(k')) => k' != k && SwitchedOn(past, k)
    case Then(past, _) => SwitchedOn(past, k)
  }

  ghost predicate ChargedAt(h: History, k: Key, t: u32) {
    match h
    case Genesis => false
    case Then(past, e) => (e.Charged? && e.key == k && e.at == t) || ChargedAt(past, k, t)
  }

  function LastCharge(h: History, k: Key): Option<u32> {
    match h
    case Genesis => None
    case Then(past, e) => if e.Charged? && e.key == k then Some(e.at) else LastCharge(past, k)
  }

  /** Any two charges of one pair are at least the content's period apart. */
  ghost predicate Spaced(h: History, contents: map<u32, Content>) {
    match h
    case Genesis => true
    case Then(past, Charged(k, _, t)) =>
      && Spaced(past, contents)
      && k.content in contents
      && forall t1: u32 :: ChargedAt(past, k, t1) ==> t1 + contents[k.content].period <= t
    case Then(past, _) => Spaced(past, contents)
  }

  lemma {:induction false} SpacedStays(h: History, contents: map<u32, Content>, more: map<u32, Content>)
    requires Spaced(h, contents)
    requires forall c :: c in contents ==> c in more && more[c].period == contents[c].period
    ensures Spaced(h, more)
  {
    if h.Genesis? {
    } else {
      SpacedStays(h.past, contents, more);
    }
  }

  /** In a spaced history the last charge is the latest one. */
  lemma {:induction false} LastChargeIsLatest(h: History, contents: map<u32, Content>, k: Key, t: u32)
    requires Spaced(h, contents) && ChargedAt(h, k, t)
    ensures LastCharge(h, k).Some? && t <= LastCharge(h, k).value
  {
    if h.last.Charged? && h.last.key == k {
      assert h == Then(h.past, Charged(k, h.last.payer, h.last.at));
    } else {
      LastChargeIsLatest(h.past, contents, k, t);
    }
  }

  lemma {:induction false} LastChargeHappened(h: History, k: Key)
    requires LastCharge(h, k).Some?
    ensures ChargedAt(h, k, LastCharge(h, k).value)
  {
    if !(h.last.Charged? && h.last.key == k) {
      LastChargeHappened(h.past, k);
    }
  }

  function Bought(h: History, k: Key): nat {
    match h
    case Genesis => 0
    case Then(past, e) => Bought(past, k) + (if e.ViewsBought? && e.key == k then e.views else 0)
  }

  function Used(h: History, k: Key): nat {
    match h
    case Genesis => 0
    case Then(past, e) => Used(past, k) + (if e.ViewUsed? && e.key == k then 1 else 0)
  }

  /** Views paid for but lost because the view pack was already at the top of its u32 range. */
  function Clipped(h: History, k: Key): nat
    decreases h, 0
  {
    match h
    case Genesis => 0
    case Then(past, e) =>
      Clipped(past, k) +
      if e.ViewsBought? && e.key == k then Max(0, Remaining(past, k) + e.views - U32_MAX) else 0
  }

  /** Views the holder still has: bought, less used, less clipped. */
  function Remaining(h: History, k: Key): int
    decreases h, 1
  {
    Bought(h, k) - Used(h, k) - Clipped(h, k)
  }

  /** At every moment the views bought exceeded the views used by at most 2^32 - 1. */
  ghost predicate NeverPassed(h: History, k: Key) {
    Bought(h, k) - Used(h, k) <= U32_MAX && (h.Then? ==> NeverPassed(h.past, k))
  }

  /** Views are clipped exactly when the balance of bought and used views once passed 2^32 - 1. */
  lemma {:induction false} ClippedIffPassed(h: History, k: Key)
    ensures Clipped(h, k) == 0 <==> NeverPassed(h, k)
  {
    if h.Genesis? {
    } else {
      ClippedIffPassed(h.past, k);
    }
  }

  predicate Owns(h: History, k: Key) {
    match h
    case Genesis => false
    case Then(past, OwnershipBought(k')) => k == k' || Owns(past, k)
    case Then(past, OwnershipMoved(c, src, dst)) =>
      if k == Key(c, dst) then true else if k == Key(c, src) then false else Owns(past, k)
    case Then(past, _) => Owns(past, k)
  }

  function OwnershipSales(h: History, c: u32): nat {
    match h
    case Genesis => 0
    case Then(past, e) => OwnershipSales(past, c) + (if e.OwnershipBought? && e.key.content == c then 1 else 0)
  }

  ghost predicate WasMinted(h: History, collection: u32, item: u32) {
    match h
    case Genesis => false
    case Then(past, e) => e == Minted(collection, item) || WasMinted(past, collection, item)
  }

  /** No item id is minted twice. */
  ghost predicate MintsDistinct(h: History) {
    match h
    case Genesis => true
    case Then(past, Minted(collection, item)) => MintsDistinct(past) && !WasMinted(past, collection, item)
    case Then(past, _) => MintsDistinct(past)
  }
}
