/**
  The payment currency. Existential deposits, holds and freezes are represented by the
  decision `allow`: a transfer either fails without effect or moves exactly the amount.
*/
module Bank {
  import opened Numbers
  import opened Sums

  /** An account identifier: its encoded bytes (32 of them on the rights chain). */
  datatype Account = Account(raw: seq<Byte>)

  type Balances = map<Account, nat>

  /** Whether the currency accepts moving an amount from one account to another. */
  type Policy = (Balances, Account, Account, nat) -> bool

  /** A currency that accepts every transfer that can be afforded. */
  ghost predicate RefusesNothing(allow: Policy) {
    forall bank: Balances, src: Account, dst: Account, amount: nat :: allow(bank, src, dst, amount)
  }

  function BalanceOf(bank: Balances, a: Account): nat { if a in bank then bank[a] else 0 }

  function Move(bank: Balances, src: Account, dst: Account, amount: nat): Balances
    requires amount <= BalanceOf(bank, src)
  {
    if src == dst then bank
    else bank[src := BalanceOf(bank, src) - amount][dst := BalanceOf(bank, dst) + amount]
  }

  function TransferAmount(bank: Balances, src: Account, dst: Account, amount: nat, allow: Policy): Result<Balances> {
    if amount <= BalanceOf(bank, src) && allow(bank, src, dst, amount) then
      Ok(Move(bank, src, dst, amount))
    else
      Err(TransferFailed)
  }

  /** Total issuance: the sum of all balances. */
  ghost function Issuance(bank: Balances): nat { Total(bank) }

  lemma {:induction false} MoveKeepsIssuance(bank: Balances, src: Account, dst: Account, amount: nat)
    requires amount <= BalanceOf(bank, src)
    ensures Issuance(Move(bank, src, dst, amount)) == Issuance(bank)
  {
    if src != dst {
      TotalUpdate(bank, src, BalanceOf(bank, src) - amount);
      TotalUpdate(bank[src := BalanceOf(bank, src) - amount], dst, BalanceOf(bank, dst) + amount);
    }
  }
}
