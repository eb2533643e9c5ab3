/** Royalty-split payments: what a payment does to every account, and its rounding. */
module Royalties {
  import opened Numbers
  import opened Bank

  const MAX_ROYALTY_SPLITS := 10
  const BASIS_POINTS := 10_000

  datatype Split = Split(recipient: Account, points: u16)

  function Points(splits: seq<Split>): nat {
    if splits == [] then 0 else splits[0].points + Points(splits[1..])
  }

  /** What `set_royalty_splits` accepts. */
  predicate SplitsOk(splits: seq<Split>) {
    |splits| <= MAX_ROYALTY_SPLITS && Points(splits) <= BASIS_POINTS
  }

  function Share(amount: u128, points: u16): u128 { SatMul128(amount, points) / BASIS_POINTS }

  /** Sum of all shares of a payment. */
  function Distributed(splits: seq<Split>, amount: u128): nat {
    if splits == [] then 0 else Share(amount, splits[0].points) + Distributed(splits[1..], amount)
  }

  /** Sum of the shares of one account. */
  function ShareTo(splits: seq<Split>, amount: u128, a: Account): nat {
    if splits == [] then 0
    else (if splits[0].recipient == a then Share(amount, splits[0].points) else 0) + ShareTo(splits[1..], amount, a)
  }

  function PaySplits(bank: Balances, src: Account, splits: seq<Split>, amount: u128, allow: Policy): Result<Balances>
    decreases |splits|
  {
    if splits == [] then Ok(bank)
    else
      var share := Share(amount, splits[0].points);
      var b :- if share > 0 then TransferAmount(bank, src, splits[0].recipient, share, allow) else Ok(bank);
      PaySplits(b, src, splits[1..], amount, allow)
  }

  function Pay(bank: Balances, src: Account, creator: Account, splits: seq<Split>, amount: u128, allow: Policy)
    : Result<Balances>
  {
    if splits == [] then TransferAmount(bank, src, creator, amount, allow)
    else
      var b :- PaySplits(bank, src, splits, amount, allow);
      var remainder := Max(0, amount - Distributed(splits, amount));
      if remainder > 0 then TransferAmount(b, src, creator, remainder, allow) else Ok(b)
  }

  /** What account `a` receives from a payment of `amount`. */
  function Owed(splits: seq<Split>, amount: u128, creator: Account, a: Account): int {
    ShareTo(splits, amount, a) + (if a == creator then amount - Distributed(splits, amount) else 0)
  }

  /** What account `a` pays when `src` is the payer. */
  function Outflow(src: Account, amount: nat, a: Account): nat { if a == src then amount else 0 }

  lemma {:induction false} ShareAtMostExact(amount: u128, points: u16)
    ensures BASIS_POINTS * Share(amount, points) <= amount * points
  {
  }

  lemma Distribute(x: nat, y: nat, z: nat)
    ensures x * (y + z) == x * y + x * z
  {
  }

  lemma ScaleUp(x: nat, y: nat, z: nat)
    requires y <= z
    ensures x * y <= x * z
  {
  }

  lemma {:induction false} DistributedAtMostExact(splits: seq<Split>, amount: u128)
    ensures BASIS_POINTS * Distributed(splits, amount) <= amount * Points(splits)
  {
    if splits == [] {
    } else {
      DistributedAtMostExact(splits[1..], amount);
      ShareAtMostExact(amount, splits[0].points);
      Distribute(amount, splits[0].points, Points(splits[1..]));
    }
  }

  /** The shares never exceed the amount, whether or not the multiplication saturates. */
  lemma {:induction false} NeverOverdistributed(splits: seq<Split>, amount: u128)
    requires Points(splits) <= BASIS_POINTS
    ensures Distributed(splits, amount) <= amount
  {
    DistributedAtMostExact(splits, amount);
    ScaleUp(amount, Points(splits), BASIS_POINTS);
  }

  /** Without clipping a share is less than one unit below its exact value. */
  lemma {:induction false} ShareWithinOneUnit(amount: u128, points: u16)
    requires amount * points <= U128_MAX
    ensures 0 <= amount * points - BASIS_POINTS * Share(amount, points) < BASIS_POINTS
  {
    var product := amount * points;
    assert product == BASIS_POINTS * (product / BASIS_POINTS) + product % BASIS_POINTS;
  }

  /**
    Without clipping the creator's remainder exceeds its exact part by less than one unit per
    split (in ten-thousandths of a unit: by at most 9,999 per split).
  */
  lemma {:induction false} CreatorSurplus(splits: seq<Split>, amount: u128)
    requires forall i :: 0 <= i < |splits| ==> amount * splits[i].points <= U128_MAX
    ensures 0 <= BASIS_POINTS * (amount - Distributed(splits, amount)) - amount * (BASIS_POINTS - Points(splits))
              <= (BASIS_POINTS - 1) * |splits|
  {
    if splits == [] {
    } else {
      var p, rest := splits[0].points, Points(splits[1..]);
      CreatorSurplus(splits[1..], amount);
      ShareWithinOneUnit(amount, p);
      assert amount * (BASIS_POINTS - (p + rest)) == amount * (BASIS_POINTS - rest) - amount * p;
    }
  }

  lemma {:induction false} SplitsExact(bank: Balances, src: Account, splits: seq<Split>, amount: u128, allow: Policy, a: Account)
    requires PaySplits(bank, src, splits, amount, allow).Ok?
    ensures var after := PaySplits(bank, src, splits, amount, allow).value;
            && BalanceOf(after, a) + Outflow(src, Distributed(splits, amount), a) == BalanceOf(bank, a) + ShareTo(splits, amount, a)
            && Issuance(after) == Issuance(bank)
    decreases |splits|
  {
    if splits == [] {
    } else {
      var share, dst := Share(amount, splits[0].points), splits[0].recipient;
      if share > 0 {
        MoveKeepsIssuance(bank, src, dst, share);
        SplitsExact(Move(bank, src, dst, share), src, splits[1..], amount, allow, a);
      } else {
        SplitsExact(bank, src, splits[1..], amount, allow, a);
      }
    }
  }

  /**
    A successful payment takes exactly `amount` from the payer and gives every account exactly
    what it is owed, for any coincidence of payer, creator and recipients; issuance is unchanged.
  */
  lemma {:induction false} PaymentExact(
      bank: Balances, src: Account, creator: Account, splits: seq<Split>, amount: u128, allow: Policy, a: Account)
    requires Points(splits) <= BASIS_POINTS
    requires Pay(bank, src, creator, splits, amount, allow).Ok?
    ensures var after := Pay(bank, src, creator, splits, amount, allow).value;
            && BalanceOf(after, a) + Outflow(src, amount, a) == BalanceOf(bank, a) + Owed(splits, amount, creator, a)
            && Issuance(after) == Issuance(bank)
  {
    if splits == [] {
      MoveKeepsIssuance(bank, src, creator, amount);
    } else {
      NeverOverdistributed(splits, amount);
      SplitsExact(bank, src, splits, amount, allow, a);
      var mid := PaySplits(bank, src, splits, amount, allow).value;
      var remainder := amount - Distributed(splits, amount);
      if remainder > 0 {
        MoveKeepsIssuance(mid, src, creator, remainder);
      }
    }
  }

  // ---------- When a payment is accepted ----------

  /** One transfer of a payment. */
  datatype Transfer = Transfer(dst: Account, amount: nat)

  function ShareTransfers(splits: seq<Split>, amount: u128): seq<Transfer> {
    if splits == [] then []
    else
      var share := Share(amount, splits[0].points);
      (if share > 0 then [Transfer(splits[0].recipient, share)] else []) + ShareTransfers(splits[1..], amount)
  }

  /** The transfers of a payment: every positive share in order, then what is left for the creator, if anything is. */
  function Transfers(splits: seq<Split>, creator: Account, amount: u128): seq<Transfer> {
    if splits == [] then [Transfer(creator, amount)]
    else
      ShareTransfers(splits, amount) +
      if Distributed(splits, amount) < amount then [Transfer(creator, amount - Distributed(splits, amount))] else []
  }

  /** Every transfer, in order, can be afforded and is accepted on the balances its predecessors left. */
  predicate AllAccepted(bank: Balances, src: Account, ts: seq<Transfer>, allow: Policy)
    decreases |ts|
  {
    ts == [] ||
    (&& ts[0].amount <= BalanceOf(bank, src)
     && allow(bank, src, ts[0].dst, ts[0].amount)
     && AllAccepted(Move(bank, src, ts[0].dst, ts[0].amount), src, ts[1..], allow))
  }

  predicate PaymentAccepted(bank: Balances, src: Account, creator: Account, splits: seq<Split>, amount: u128, allow: Policy) {
    AllAccepted(bank, src, Transfers(splits, creator, amount), allow)
  }

  lemma {:induction false} OneAccepted(bank: Balances, src: Account, t: Transfer, allow: Policy)
    ensures AllAccepted(bank, src, [t], allow) <==> TransferAmount(bank, src, t.dst, t.amount, allow).Ok?
  {
    assert [t][1..] == [];
  }

  lemma {:induction false} AcceptedSnoc(bank: Balances, src: Account, splits: seq<Split>, amount: u128, last: seq<Transfer>, allow: Policy)
    requires |last| <= 1
    ensures var paid := PaySplits(bank, src, splits, amount, allow);
            AllAccepted(bank, src, ShareTransfers(splits, amount) + last, allow) <==> paid.Ok? && AllAccepted(paid.value, src, last, allow)
    decreases |splits|
  {
    if splits == [] {
      assert [] + last == last;
    } else {
      var share, dst, rest := Share(amount, splits[0].points), splits[0].recipient, ShareTransfers(splits[1..], amount) + last;
      if share > 0 {
        assert ShareTransfers(splits, amount) + last == [Transfer(dst, share)] + rest;
        if share <= BalanceOf(bank, src) {
          AcceptedSnoc(Move(bank, src, dst, share), src, splits[1..], amount, last, allow);
        }
      } else {
        assert ShareTransfers(splits, amount) + last == rest;
        AcceptedSnoc(bank, src, splits[1..], amount, last, allow);
      }
    }
  }

  lemma {:induction false} SplitsFailOnlyByTransfer(bank: Balances, src: Account, splits: seq<Split>, amount: u128, allow: Policy)
    requires PaySplits(bank, src, splits, amount, allow).Err?
    ensures PaySplits(bank, src, splits, amount, allow) == Err(TransferFailed)
    decreases |splits|
  {
    var share, dst := Share(amount, splits[0].points), splits[0].recipient;
    if share == 0 {
      SplitsFailOnlyByTransfer(bank, src, splits[1..], amount, allow);
    } else if share <= BalanceOf(bank, src) && allow(bank, src, dst, share) {
      SplitsFailOnlyByTransfer(Move(bank, src, dst, share), src, splits[1..], amount, allow);
    }
  }

  /** A payment succeeds exactly if each of its transfers is accepted in turn; nothing else refuses it. */
  lemma {:induction false} PaymentAcceptedIff(
      bank: Balances, src: Account, creator: Account, splits: seq<Split>, amount: u128, allow: Policy)
    ensures Pay(bank, src, creator, splits, amount, allow).Ok? <==> PaymentAccepted(bank, src, creator, splits, amount, allow)
    ensures Pay(bank, src, creator, splits, amount, allow).Err? ==>
              Pay(bank, src, creator, splits, amount, allow) == Err(TransferFailed)
  {
    if splits == [] {
      OneAccepted(bank, src, Transfer(creator, amount), allow);
    } else {
      var left := amount - Distributed(splits, amount);
      var last := if left > 0 then [Transfer(creator, left)] else [];
      AcceptedSnoc(bank, src, splits, amount, last, allow);
      if PaySplits(bank, src, splits, amount, allow).Ok? {
        OneAccepted(PaySplits(bank, src, splits, amount, allow).value, src, Transfer(creator, Max(0, left)), allow);
      } else {
        SplitsFailOnlyByTransfer(bank, src, splits, amount, allow);
      }
    }
  }

  /** A payment one of whose transfers the currency refuses whatever the balances are fails. */
  lemma {:induction false} RefusedTransferFails(
      bank: Balances, src: Account, creator: Account, splits: seq<Split>, amount: u128, allow: Policy, i: nat)
    requires var ts := Transfers(splits, creator, amount);
             i < |ts| && forall b: Balances :: !allow(b, src, ts[i].dst, ts[i].amount)
    ensures Pay(bank, src, creator, splits, amount, allow) == Err(TransferFailed)
  {
    RefusedIsNotAccepted(bank, src, Transfers(splits, creator, amount), allow, i);
    PaymentAcceptedIff(bank, src, creator, splits, amount, allow);
  }

  lemma {:induction false} RefusedIsNotAccepted(bank: Balances, src: Account, ts: seq<Transfer>, allow: Policy, i: nat)
    requires i < |ts| && forall b: Balances :: !allow(b, src, ts[i].dst, ts[i].amount)
    ensures !AllAccepted(bank, src, ts, allow)
    decreases i
  {
    if i == 0 {
    } else if ts[0].amount <= BalanceOf(bank, src) {
      RefusedIsNotAccepted(Move(bank, src, ts[0].dst, ts[0].amount), src, ts[1..], allow, i - 1);
    }
  }

  /** The least balance with which `src` can afford the transfers in order; those to itself cost nothing. */
  function Needed(src: Account, ts: seq<Transfer>): nat {
    if ts == [] then 0
    else Max(ts[0].amount, (if ts[0].dst == src then 0 else ts[0].amount) + Needed(src, ts[1..]))
  }

  function Amounts(ts: seq<Transfer>): nat { if ts == [] then 0 else ts[0].amount + Amounts(ts[1..]) }

  lemma {:induction false} AcceptedIffNeeded(bank: Balances, src: Account, ts: seq<Transfer>, allow: Policy)
    requires RefusesNothing(allow)
    ensures AllAccepted(bank, src, ts, allow) <==> Needed(src, ts) <= BalanceOf(bank, src)
    decreases |ts|
  {
    if ts == [] {
    } else if ts[0].amount <= BalanceOf(bank, src) {
      AcceptedIffNeeded(Move(bank, src, ts[0].dst, ts[0].amount), src, ts[1..], allow);
    }
  }

  /** The sum of the amounts always suffices, and is needed when nothing comes back to the payer. */
  lemma {:induction false} NeededAtMostSum(src: Account, ts: seq<Transfer>)
    ensures Needed(src, ts) <= Amounts(ts)
    ensures (forall i :: 0 <= i < |ts| ==> ts[i].dst != src) ==> Needed(src, ts) == Amounts(ts)
  {
    if ts == [] {
    } else {
      NeededAtMostSum(src, ts[1..]);
      assert (forall i :: 0 <= i < |ts| ==> ts[i].dst != src) ==> ts[0].dst != src && forall i :: 0 <= i < |ts[1..]| ==> ts[1..][i].dst != src;
    }
  }

  lemma {:induction false} AmountsConcat(x: seq<Transfer>, y: seq<Transfer>)
    ensures Amounts(x + y) == Amounts(x) + Amounts(y)
  {
    if x == [] {
      assert x + y == y;
    } else {
      assert (x + y)[1..] == x[1..] + y;
      AmountsConcat(x[1..], y);
    }
  }

  lemma {:induction false} ShareTransfersMeaning(splits: seq<Split>, amount: u128, src: Account)
    ensures Amounts(ShareTransfers(splits, amount)) == Distributed(splits, amount)
    ensures (forall i :: 0 <= i < |splits| ==> splits[i].recipient != src) ==>
              forall t :: t in ShareTransfers(splits, amount) ==> t.dst != src
  {
    if splits == [] {
    } else {
      var share := Share(amount, splits[0].points);
      ShareTransfersMeaning(splits[1..], amount, src);
      AmountsConcat(if share > 0 then [Transfer(splits[0].recipient, share)] else [], ShareTransfers(splits[1..], amount));
      assert (forall i :: 0 <= i < |splits| ==> splits[i].recipient != src) ==>
          splits[0].recipient != src && forall i :: 0 <= i < |splits[1..]| ==> splits[1..][i].recipient != src;
    }
  }

  /** The transfers of a payment add up to the amount. */
  lemma {:induction false} TransfersAddUp(splits: seq<Split>, creator: Account, amount: u128, src: Account)
    requires Points(splits) <= BASIS_POINTS
    ensures Amounts(Transfers(splits, creator, amount)) == amount
    ensures creator != src && (forall i :: 0 <= i < |splits| ==> splits[i].recipient != src) ==>
              forall t :: t in Transfers(splits, creator, amount) ==> t.dst != src
  {
    NeverOverdistributed(splits, amount);
    ShareTransfersMeaning(splits, amount, src);
    var left := amount - Distributed(splits, amount);
    AmountsConcat(ShareTransfers(splits, amount), if left > 0 then [Transfer(creator, left)] else []);
  }

  /**
    A currency that refuses nothing lets a payment through exactly if the payer holds the least
    balance its transfers need. The amount always suffices, also when it is split without remainder,
    and is necessary unless the payer is the creator or a recipient itself.
  */
  lemma {:induction false} WillingPaymentIff(
      bank: Balances, src: Account, creator: Account, splits: seq<Split>, amount: u128, allow: Policy)
    requires Points(splits) <= BASIS_POINTS && RefusesNothing(allow)
    ensures Pay(bank, src, creator, splits, amount, allow).Ok? <==>
            Needed(src, Transfers(splits, creator, amount)) <= BalanceOf(bank, src)
    ensures amount <= BalanceOf(bank, src) ==> Pay(bank, src, creator, splits, amount, allow).Ok?
    ensures src != creator && (forall i :: 0 <= i < |splits| ==> splits[i].recipient != src) ==>
              (Pay(bank, src, creator, splits, amount, allow).Ok? <==> amount <= BalanceOf(bank, src))
  {
    var ts := Transfers(splits, creator, amount);
    PaymentAcceptedIff(bank, src, creator, splits, amount, allow);
    AcceptedIffNeeded(bank, src, ts, allow);
    NeededAtMostSum(src, ts);
    TransfersAddUp(splits, creator, amount, src);
  }

  // ---------- Basis points ----------

  lemma {:induction false} PointsPrefix(splits: seq<Split>, i: nat)
    requires i <= |splits|
    ensures Points(splits[..i]) + Points(splits[i..]) == Points(splits)
  {
    if i == 0 {
      assert splits[0..] == splits;
    } else {
      PointsPrefix(splits[1..], i - 1);
      assert splits[..i][1..] == splits[1..][..i - 1];
      assert splits[1..][i - 1..] == splits[i..];
    }
  }

  lemma {:induction false} PointsSnoc(splits: seq<Split>, i: nat)
    requires i < |splits|
    ensures Points(splits[..i + 1]) == Points(splits[..i]) + splits[i].points
  {
    PointsPrefix(splits, i);
    PointsPrefix(splits, i + 1);
    assert splits[i..][1..] == splits[i + 1..];
  }

  /** The u16 accumulator of `query_rights_metadata` holds every partial sum of accepted splits. */
  method TotalBasisPoints(splits: seq<Split>) returns (total: u16)
    requires SplitsOk(splits)
    ensures total == Points(splits) <= BASIS_POINTS
  {
    total := 0;
    for i := 0 to |splits|
      invariant total == Points(splits[..i])
    {
      PointsSnoc(splits, i);
      PointsPrefix(splits, i + 1);
      total := total + splits[i].points;
    }
    assert splits[..|splits|] == splits;
  }

  /** The u32 total by which `set_royalty_splits` decides; ten u16 values cannot overflow it. */
  method ValidateSplits(splits: seq<Split>) returns (ok: bool)
    requires |splits| <= MAX_ROYALTY_SPLITS
    ensures ok <==> SplitsOk(splits)
  {
    var total: u32 := 0;
    for i := 0 to |splits|
      invariant total == Points(splits[..i]) <= i * U16_MAX
    {
      PointsSnoc(splits, i);
      total := total + splits[i].points;
    }
    assert splits[..|splits|] == splits;
    ok := total <= BASIS_POINTS;
  }
}
