/** Fixed-width integers of the runtime and the saturating operations on them. */
module Numbers {
  const U16_MAX := 0xFFFF
  const U32_MAX := 0xFFFF_FFFF
  const U128_MAX := 0xFFFF_FFFF_FFFF_FFFF_FFFF_FFFF_FFFF_FFFF

  type Byte = x: int | 0 <= x < 256
  type u16 = x: int | 0 <= x <= 0xFFFF
  type u32 = x: int | 0 <= x <= 0xFFFF_FFFF
  type u128 = x: int | 0 <= x <= 0xFFFF_FFFF_FFFF_FFFF_FFFF_FFFF_FFFF_FFFF

  function Min(x: int, y: int): int { if x <= y then x else y }

  function Max(x: int, y: int): int { if x <= y then y else x }

  function SatAdd32(x: u32, y: u32): u32 { if x + y <= U32_MAX then x + y else U32_MAX }

  function SatMul128(x: u128, y: u128): u128 { if x * y <= U128_MAX then x * y else U128_MAX }

  datatype Option<+T> = None | Some(value: T)

  /** Errors of the rights, client and verifier pallets, plus the failures foreign pallets can cause. */
  datatype Error =
    | ContentNotFound | NotContentCreator | SubscriptionAlreadyExists | SubscriptionNotFound
    | SubscriptionNotExpired | ViewPackNotFound | NoViewsRemaining | AlreadyOwned | InsufficientPayment
    | ContentIdOverflow | ItemIdOverflow | OwnershipNotFound | InvalidRoyaltySplits
    | AutoRenewAlreadyEnabled | AutoRenewNotEnabled | Unauthorized | RenewalQueueFull | ZeroViews
    | AutoRenewPeriodTooShort | SendFailed | UnknownQuery | WrongResponder | BadBeneficiary
    | InvalidProof | DecodingFailed | UnknownRelayBlock | NoRightsHead | ProofTooLarge
    | TransferFailed | NftFailed | BadOrigin

  datatype Result<+T> = Ok(value: T) | Err(error: Error) {
    predicate IsFailure() { Err? }
    function PropagateFailure<U>(): Result<U>
      requires Err?
    {
      Err(error)
    }
    function Extract(): T
      requires Ok?
    {
      value
    }
  }
}
