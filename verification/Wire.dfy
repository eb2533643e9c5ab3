/** The bytes of a cross-chain call (SCALE codec): what the client sends and what the rights chain decodes. */
module Wire {
  import opened Numbers
  import opened Bank
  import opened Ledger

  const ACCOUNT_BYTES := 32

  /** The right a user asks for. */
  datatype RightsRequest =
    | SubscribeTo(content: u32)
    | Renew(content: u32)
    | BuyViews(content: u32, views: u32)
    | BuyOwnership(content: u32)

  /** A u32 is four bytes, least significant first. */
  function EncodeU32(x: u32): (b: seq<Byte>)
    ensures |b| == 4
  {
    [x % 256, x / 256 % 256, x / 65536 % 256, x / 16777216]
  }

  function DecodeU32(b: seq<Byte>): u32
    requires |b| == 4
  {
    var b0: int, b1: int, b2: int, b3: int := b[0], b[1], b[2], b[3];
    b0 + 256 * b1 + 65536 * b2 + 16777216 * b3
  }

  lemma {:induction false} U32RoundTrip(x: u32)
    ensures DecodeU32(EncodeU32(x)) == x
  {
    var high, top := x / 256, x / 65536;
    assert x == 256 * high + x % 256;
    assert high == 256 * top + high % 256;
    assert top == 256 * (x / 16777216) + top % 256;
  }

  lemma {:induction false} U32Canonical(b: seq<Byte>)
    requires |b| == 4
    ensures EncodeU32(DecodeU32(b)) == b
  {
    var x: int, b1: int, b2: int, b3: int := DecodeU32(b), b[1], b[2], b[3];
    assert x / 256 == b1 + 256 * b2 + 65536 * b3;
    assert x / 65536 == b2 + 256 * b3;
  }

  /** The client's encoding of a request: pallet index, call index, then the arguments in order. */
  function RemoteCall(palletIndex: Byte, request: RightsRequest, beneficiary: seq<Byte>): seq<Byte> {
    match request
    case SubscribeTo(c) => [palletIndex, 7] + EncodeU32(c) + beneficiary
    case Renew(c) => [palletIndex, 8] + EncodeU32(c) + beneficiary
    case BuyViews(c, n) => [palletIndex, 9] + EncodeU32(c) + beneficiary + EncodeU32(n)
    case BuyOwnership(c) => [palletIndex, 10] + EncodeU32(c) + beneficiary
  }

  /** The rights chain's decoding by its call indices and argument order; trailing bytes are refused. */
  function DecodeCall(palletIndex: Byte, bytes: seq<Byte>): Option<Call> {
    if |bytes| < 38 || bytes[0] != palletIndex then None
    else
      var index, content, beneficiary, rest := bytes[1], DecodeU32(bytes[2..6]), Account(bytes[6..38]), bytes[38..];
      if index == 9 then
        if |rest| == 4 then Some(XcmPurchaseViews(content, beneficiary, DecodeU32(rest))) else None
      else if rest != [] then None
      else if index == 7 then Some(XcmSubscribe(content, beneficiary))
      else if index == 8 then Some(XcmRenewSubscription(content, beneficiary))
      else if index == 10 then Some(XcmPurchaseOwnership(content, beneficiary))
      else None
  }

  /** The call a request stands for. */
  function CallFor(request: RightsRequest, beneficiary: Account): Call {
    match request
    case SubscribeTo(c) => XcmSubscribe(c, beneficiary)
    case Renew(c) => XcmRenewSubscription(c, beneficiary)
    case BuyViews(c, n) => XcmPurchaseViews(c, beneficiary, n)
    case BuyOwnership(c) => XcmPurchaseOwnership(c, beneficiary)
  }

  lemma {:induction false} Slices(p: Byte, i: Byte, content: u32, who: seq<Byte>, tail: seq<Byte>)
    requires |who| == ACCOUNT_BYTES
    ensures var bytes := [p, i] + EncodeU32(content) + who + tail;
            && |bytes| == 38 + |tail| && bytes[0] == p && bytes[1] == i
            && bytes[2..6] == EncodeU32(content) && bytes[6..38] == who && bytes[38..] == tail
  {
  }

  /** Decoding what the client sends yields exactly the matching cross-chain call for the beneficiary. */
  lemma {:induction false} WireRoundTrip(palletIndex: Byte, request: RightsRequest, beneficiary: seq<Byte>)
    requires |beneficiary| == ACCOUNT_BYTES
    ensures DecodeCall(palletIndex, RemoteCall(palletIndex, request, beneficiary)) == Some(CallFor(request, Account(beneficiary)))
  {
    var tail := if request.BuyViews? then EncodeU32(request.views) else [];
    var index := match request case SubscribeTo(_) => 7 case Renew(_) => 8 case BuyViews(_, _) => 9 case BuyOwnership(_) => 10;
    Slices(palletIndex, index, request.content, beneficiary, tail);
    assert RemoteCall(palletIndex, request, beneficiary) == [palletIndex, index] + EncodeU32(request.content) + beneficiary + tail;
    U32RoundTrip(request.content);
    if request.BuyViews? {
      U32RoundTrip(request.views);
    }
  }

  /** Distinct requests or beneficiaries are never confused on the wire. */
  lemma {:induction false} WireInjective(p: Byte, r1: RightsRequest, b1: seq<Byte>, r2: RightsRequest, b2: seq<Byte>)
    requires |b1| == ACCOUNT_BYTES && |b2| == ACCOUNT_BYTES
    requires RemoteCall(p, r1, b1) == RemoteCall(p, r2, b2)
    ensures r1 == r2 && b1 == b2
  {
    WireRoundTrip(p, r1, b1);
    WireRoundTrip(p, r2, b2);
  }

  /** Whatever decodes as one of the four purchase calls is the encoding of a request: there is no second spelling. */
  lemma {:induction false} WireCanonical(p: Byte, bytes: seq<Byte>) returns (request: RightsRequest, beneficiary: seq<Byte>)
    requires DecodeCall(p, bytes).Some?
    ensures |beneficiary| == ACCOUNT_BYTES && bytes == RemoteCall(p, request, beneficiary)
    ensures DecodeCall(p, bytes) == Some(CallFor(request, Account(beneficiary)))
  {
    var content := DecodeU32(bytes[2..6]);
    beneficiary := bytes[6..38];
    U32Canonical(bytes[2..6]);
    assert bytes == [p, bytes[1]] + EncodeU32(content) + beneficiary + bytes[38..];
    if bytes[1] == 9 {
      U32Canonical(bytes[38..]);
      request := BuyViews(content, DecodeU32(bytes[38..]));
    } else if bytes[1] == 7 {
      request := SubscribeTo(content);
    } else if bytes[1] == 8 {
      request := Renew(content);
    } else {
      request := BuyOwnership(content);
    }
  }
}
