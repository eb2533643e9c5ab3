/** Proof-based verification of rights held on the rights chain, and the EVM reader on that chain. */
module RightsVerifier {
  import opened Numbers
  import opened Checking
  import opened Bank
  import opened RenewalQueue
  import opened Ledger
  import opened Wire
  import opened RelayRoots
  import Theorems

  type Bytes = seq<Byte>

  const MAX_PROOF_BYTES := 16_384

  /** Foreign code the verifier relies on: the trie reader, header decoding and the key hashes. */
  datatype Primitives = Primitives(
    read: (Root, seq<Bytes>, Bytes) -> Result<Option<Bytes>>,
    header: Bytes -> Option<(Root, u32)>,
    twox64: Bytes -> Bytes,
    twox128: Bytes -> Bytes,
    blake128: Bytes -> Bytes)

  // ---------- Proof size ----------

  function Saturate(x: nat, max: nat): nat { if x <= max then x else max }

  function FoldLengths(nodes: seq<Bytes>, acc: nat, usizeMax: nat): nat
    decreases |nodes|
  {
    if nodes == [] then acc else FoldLengths(nodes[1..], Saturate(acc + |nodes[0]|, usizeMax), usizeMax)
  }

  /** Total size of the two proofs, by a saturating fold over machine words and a conversion to u32. */
  function ProofBytes(relayProof: seq<Bytes>, rightsProof: seq<Bytes>, usizeMax: nat): u32 {
    var folded := FoldLengths(relayProof + rightsProof, 0, usizeMax);
    if folded <= U32_MAX then folded else U32_MAX
  }

  function Size(nodes: seq<Bytes>): nat
    decreases |nodes|
  {
    if nodes == [] then 0 else |nodes[0]| + Size(nodes[1..])
  }

  lemma {:induction false} FoldIsSaturatedSum(nodes: seq<Bytes>, acc: nat, usizeMax: nat)
    requires acc <= usizeMax
    ensures FoldLengths(nodes, acc, usizeMax) == Saturate(acc + Size(nodes), usizeMax)
    decreases |nodes|
  {
    if nodes == [] {
    } else {
      FoldIsSaturatedSum(nodes[1..], Saturate(acc + |nodes[0]|, usizeMax), usizeMax);
    }
  }

  lemma {:induction false} SizeConcat(a: seq<Bytes>, b: seq<Bytes>)
    ensures Size(a + b) == Size(a) + Size(b)
    decreases |a|
  {
    if a == [] {
      assert a + b == b;
    } else {
      assert (a + b)[1..] == a[1..] + b;
      SizeConcat(a[1..], b);
    }
  }

  /** On any machine of at least 32 bits the size check sees the true total, or the u32 maximum. */
  lemma {:induction false} ProofBytesIsTotal(relayProof: seq<Bytes>, rightsProof: seq<Bytes>, usizeMax: nat)
    requires U32_MAX <= usizeMax
    ensures ProofBytes(relayProof, rightsProof, usizeMax) == Saturate(Size(relayProof) + Size(rightsProof), U32_MAX)
    ensures ProofBytes(relayProof, rightsProof, usizeMax) <= MAX_PROOF_BYTES <==>
            Size(relayProof) + Size(rightsProof) <= MAX_PROOF_BYTES
  {
    SizeConcat(relayProof, rightsProof);
    FoldIsSaturatedSum(relayProof + rightsProof, 0, usizeMax);
  }

  // ---------- Storage keys ----------

  datatype Store = OwnershipStore | SubscriptionStore | ViewPackStore

  /** "Ownership", "Subscriptions" and "ViewPacks" in ASCII. */
  function StoreName(store: Store): Bytes {
    match store
    case OwnershipStore => [79, 119, 110, 101, 114, 115, 104, 105, 112]
    case SubscriptionStore => [83, 117, 98, 115, 99, 114, 105, 112, 116, 105, 111, 110, 115]
    case ViewPackStore => [86, 105, 101, 119, 80, 97, 99, 107, 115]
  }

  /** "ContentRights" in ASCII. */
  const PALLET_NAME: Bytes := [67, 111, 110, 116, 101, 110, 116, 82, 105, 103, 104, 116, 115]

  const PARA_HEAD_PREFIX: Bytes := [
    0xcd, 0x71, 0x0b, 0x30, 0xbd, 0x2e, 0xab, 0x03, 0x52, 0xdd, 0xcc, 0x26, 0x41, 0x7a, 0xa1,
    0x94, 0x1b, 0x3c, 0x25, 0x2f, 0xcb, 0x29, 0xd8, 0x8e, 0xff, 0x4f, 0x3d, 0xe5, 0xde, 0x44,
    0x76, 0xc3]

  function ParaHeadKey(prims: Primitives, paraId: u32): Bytes {
    PARA_HEAD_PREFIX + prims.twox64(EncodeU32(paraId)) + EncodeU32(paraId)
  }

  function RightsKey(prims: Primitives, store: Store, k: Key): Bytes {
    prims.twox128(PALLET_NAME) + prims.twox128(StoreName(store))
    + prims.blake128(EncodeU32(k.content)) + EncodeU32(k.content)
    + prims.blake128(k.who.raw) + k.who.raw
  }

  /** The hashes in storage keys are 8 and 16 bytes long, and the three store names have distinct ones. */
  ghost predicate KeyHashesOk(prims: Primitives) {
    && (forall x: Bytes :: |prims.twox64(x)| == 8)
    && (forall x: Bytes :: |prims.twox128(x)| == 16)
    && (forall x: Bytes :: |prims.blake128(x)| == 16)
    && (forall a: Store, b: Store :: prims.twox128(StoreName(a)) == prims.twox128(StoreName(b)) ==> a == b)
  }

  /** Distinct entries have distinct storage keys, so a proof for one cannot answer for another. */
  lemma {:induction false} RightsKeyInjective(prims: Primitives, s1: Store, k1: Key, s2: Store, k2: Key)
    requires KeyHashesOk(prims)
    requires RightsKey(prims, s1, k1) == RightsKey(prims, s2, k2)
    ensures s1 == s2 && k1 == k2
  {
    KeyParts(prims, s1, k1);
    KeyParts(prims, s2, k2);
    U32RoundTrip(k1.content);
    U32RoundTrip(k2.content);
  }

  lemma {:induction false} KeyParts(prims: Primitives, s: Store, k: Key)
    requires KeyHashesOk(prims)
    ensures var key := RightsKey(prims, s, k);
            && |key| == 68 + |k.who.raw|
            && key[..16] == prims.twox128(PALLET_NAME) && key[32..48] == prims.blake128(EncodeU32(k.content))
            && key[52..68] == prims.blake128(k.who.raw)
            && key[16..32] == prims.twox128(StoreName(s)) && key[48..52] == EncodeU32(k.content) && key[68..] == k.who.raw
  {
  }

  /** Distinct chains have distinct head keys, and no head key is the key of a right. */
  lemma {:induction false} HeadKeyInjective(prims: Primitives, id1: u32, id2: u32, store: Store, k: Key)
    requires KeyHashesOk(prims)
    ensures ParaHeadKey(prims, id1) == ParaHeadKey(prims, id2) ==> id1 == id2
    ensures ParaHeadKey(prims, id1) != RightsKey(prims, store, k)
  {
    KeyParts(prims, store, k);
    assert ParaHeadKey(prims, id1)[40..] == EncodeU32(id1) && ParaHeadKey(prims, id2)[40..] == EncodeU32(id2);
    U32RoundTrip(id1);
    U32RoundTrip(id2);
  }

  // ---------- Stored values ----------

  function EncodeOwnership(child: u32): Bytes { EncodeU32(child) }

  function EncodeSubscription(sub: Subscription): Bytes {
    EncodeU32(sub.expiry) + [if sub.autoRenew then 1 else 0] + EncodeU32(sub.child)
  }

  function EncodeViewPack(pack: ViewPack): Bytes { EncodeU32(pack.views) + EncodeU32(pack.child) }

  function DecodeOwnership(b: Bytes): Option<u32> {
    if |b| < 4 then None else Some(DecodeU32(b[..4]))
  }

  function DecodeSubscription(b: Bytes): Option<Subscription> {
    if |b| < 9 || b[4] > 1 then None
    else Some(Subscription(DecodeU32(b[..4]), b[4] == 1, DecodeU32(b[5..9])))
  }

  function DecodeViewPack(b: Bytes): Option<ViewPack> {
    if |b| < 8 then None else Some(ViewPack(DecodeU32(b[..4]), DecodeU32(b[4..8])))
  }

  lemma {:induction false} StoredValuesRoundTrip(child: u32, sub: Subscription, pack: ViewPack)
    ensures DecodeOwnership(EncodeOwnership(child)) == Some(child)
    ensures DecodeSubscription(EncodeSubscription(sub)) == Some(sub)
    ensures DecodeViewPack(EncodeViewPack(pack)) == Some(pack)
  {
    U32RoundTrip(child);
    U32RoundTrip(sub.expiry);
    U32RoundTrip(sub.child);
    U32RoundTrip(pack.views);
    U32RoundTrip(pack.child);
    var b := EncodeSubscription(sub);
    assert b[..4] == EncodeU32(sub.expiry) && b[5..9] == EncodeU32(sub.child);
    var c := EncodeViewPack(pack);
    assert c[..4] == EncodeU32(pack.views) && c[4..8] == EncodeU32(pack.child);
    assert EncodeOwnership(child)[..4] == EncodeU32(child);
  }

  // ---------- Verification ----------

  function FindRoot(roots: seq<RelayRoot>, number: u32): Option<Root> {
    if roots == [] then None
    else if roots[0].number == number then Some(roots[0].root)
    else FindRoot(roots[1..], number)
  }

  /** The search misses no recorded number, and in a window finds exactly the root recorded for it. */
  lemma {:induction false} FindRootIff(roots: seq<RelayRoot>, number: u32, root: Root)
    ensures FindRoot(roots, number).Some? <==> HasNumber(roots, number)
    ensures NumbersDistinct(roots) ==> (FindRoot(roots, number) == Some(root) <==> RelayRoot(number, root) in roots)
  {
    if roots == [] {
    } else {
      FindRootIff(roots[1..], number, root);
      assert roots == [roots[0]] + roots[1..];
      assert forall i :: 0 < i < |roots| ==> roots[i] == roots[1..][i - 1];
      assert HasNumber(roots, number) <==> roots[0].number == number || HasNumber(roots[1..], number);
      assert RelayRoot(number, root) in roots <==> roots[0] == RelayRoot(number, root) || RelayRoot(number, root) in roots[1..];
    }
  }

  /**
    For nondecreasing reports exactly the last MaxRelayRoots distinct relay blocks can be used, each
    with the root first reported for it.
  */
  lemma {:induction false} RecentRootsAreFound(reports: seq<Option<RelayRoot>>, max: nat, number: u32, root: Root)
    requires 1 <= max && Nondecreasing(reports)
    ensures FindRoot(Window(reports, max), number) == Some(root) <==> RelayRoot(number, root) in Last(Distinct(reports), max)
  {
    WindowIsSound(reports, max);
    WindowIsRecentHistory(reports, max);
    FindRootIff(Window(reports, max), number, root);
  }

  /** A root found in the window was reported for that relay block: it never comes from the caller. */
  lemma {:induction false} FoundRootWasReported(reports: seq<Option<RelayRoot>>, max: nat, number: u32)
    requires 1 <= max && FindRoot(Window(reports, max), number).Some?
    ensures Reported(reports, RelayRoot(number, FindRoot(Window(reports, max), number).value))
  {
    var w := Window(reports, max);
    WindowIsSound(reports, max);
    var i := FoundAt(w, number);
    assert Reported(reports, w[i]);
  }

  lemma {:induction false} FoundAt(roots: seq<RelayRoot>, number: u32) returns (i: nat)
    requires FindRoot(roots, number).Some?
    ensures i < |roots| && roots[i] == RelayRoot(number, FindRoot(roots, number).value)
  {
    if roots[0].number == number {
      i := 0;
    } else {
      var j := FoundAt(roots[1..], number);
      i := j + 1;
    }
  }

  /** The state root and number of the rights chain's block included at a recorded relay block. */
  function RightsState(prims: Primitives, roots: seq<RelayRoot>, paraId: u32, relayBlock: u32, relayProof: seq<Bytes>): Result<(Root, u32)> {
    match FindRoot(roots, relayBlock)
    case None => Err(UnknownRelayBlock)
    case Some(relayRoot) =>
      var head :- prims.read(relayRoot, relayProof, ParaHeadKey(prims, paraId));
      if head.None? then Err(NoRightsHead)
      else
        match prims.header(head.value)
        case None => Err(DecodingFailed)
        case Some(state) => Ok(state)
  }

  /** What a caller submits. */
  datatype Claim = Claim(relayBlock: u32, relayProof: seq<Bytes>, rightsProof: seq<Bytes>)

  function ReadEntry(prims: Primitives, roots: seq<RelayRoot>, paraId: u32, usizeMax: nat, claim: Claim, store: Store, k: Key)
    : Result<(Option<Bytes>, u32)>
  {
    if ProofBytes(claim.relayProof, claim.rightsProof, usizeMax) > MAX_PROOF_BYTES then Err(ProofTooLarge)
    else
      var state :- RightsState(prims, roots, paraId, claim.relayBlock, claim.relayProof);
      var value :- prims.read(state.0, claim.rightsProof, RightsKey(prims, store, k));
      Ok((value, state.1))
  }

  function VerifyOwnership(prims: Primitives, roots: seq<RelayRoot>, paraId: u32, usizeMax: nat, claim: Claim, k: Key): Result<bool> {
    var entry :- ReadEntry(prims, roots, paraId, usizeMax, claim, OwnershipStore, k);
    match entry.0
    case None => Ok(false)
    case Some(bytes) => if DecodeOwnership(bytes).None? then Err(DecodingFailed) else Ok(true)
  }

  /** Whether the subscription is active, and its expiry block. */
  function VerifySubscription(prims: Primitives, roots: seq<RelayRoot>, paraId: u32, usizeMax: nat, claim: Claim, k: Key): Result<(bool, u32)> {
    var entry :- ReadEntry(prims, roots, paraId, usizeMax, claim, SubscriptionStore, k);
    match entry.0
    case None => Ok((false, 0))
    case Some(bytes) =>
      match DecodeSubscription(bytes)
      case None => Err(DecodingFailed)
      case Some(sub) => Ok((entry.1 < sub.expiry, sub.expiry))
  }

  /** Whether views remain, and how many. */
  function VerifyViewPack(prims: Primitives, roots: seq<RelayRoot>, paraId: u32, usizeMax: nat, claim: Claim, k: Key): Result<(bool, u32)> {
    var entry :- ReadEntry(prims, roots, paraId, usizeMax, claim, ViewPackStore, k);
    match entry.0
    case None => Ok((false, 0))
    case Some(bytes) =>
      match DecodeViewPack(bytes)
      case None => Err(DecodingFailed)
      case Some(pack) => Ok((pack.views > 0, pack.views))
  }

  // ---------- Agreement with the rights chain ----------

  /** What each storage root commits to. */
  type Commitments = Root -> map<Bytes, Bytes>

  function Lookup(trie: map<Bytes, Bytes>, key: Bytes): Option<Bytes> { if key in trie then Some(trie[key]) else None }

  /** The trie reader's contract: whatever nodes it is given, an accepted answer is the committed one. */
  ghost predicate ReaderSound(prims: Primitives, committed: Commitments) {
    forall root: Root, nodes: seq<Bytes>, key: Bytes ::
      prims.read(root, nodes, key).Ok? ==> prims.read(root, nodes, key).value == Lookup(committed(root), key)
  }

  function StoredEntry(s: Chain, store: Store, k: Key): Option<Bytes> {
    match store
    case OwnershipStore => if k in s.ownership then Some(EncodeOwnership(s.ownership[k])) else None
    case SubscriptionStore => if k in s.subscriptions then Some(EncodeSubscription(s.subscriptions[k])) else None
    case ViewPackStore => if k in s.viewPacks then Some(EncodeViewPack(s.viewPacks[k])) else None
  }

  /** The trie holds the encoded rights of the chain. */
  ghost predicate Commits(prims: Primitives, trie: map<Bytes, Bytes>, s: Chain) {
    forall store: Store, k: Key :: Lookup(trie, RightsKey(prims, store, k)) == StoredEntry(s, store, k)
  }

  /** A trie holding exactly the chain's rights. */
  ghost function TrieOf(prims: Primitives, s: Chain): map<Bytes, Bytes>
    requires KeyHashesOk(prims)
  {
    var keys := (set k | k in s.ownership :: RightsKey(prims, OwnershipStore, k))
                + (set k | k in s.subscriptions :: RightsKey(prims, SubscriptionStore, k))
                + (set k | k in s.viewPacks :: RightsKey(prims, ViewPackStore, k));
    map key | key in keys :: EntryAt(prims, s, key)
  }

  /** The entry whose storage key this is; storage keys are injective, so there is only one. */
  ghost function EntryAt(prims: Primitives, s: Chain, key: Bytes): Bytes {
    if exists store: Store, k: Key :: RightsKey(prims, store, k) == key && StoredEntry(s, store, k).Some? then
      var store: Store, k: Key :| RightsKey(prims, store, k) == key && StoredEntry(s, store, k).Some?;
      StoredEntry(s, store, k).value
    else []
  }

  /** Such commitments exist for every state: no two entries compete for a key. */
  lemma {:induction false} CommitmentExists(prims: Primitives, s: Chain)
    requires KeyHashesOk(prims)
    ensures Commits(prims, TrieOf(prims, s), s)
  {
    hide RightsKey;
    hide KeyHashesOk;
    var trie := TrieOf(prims, s);
    forall store: Store, k: Key
      ensures Lookup(trie, RightsKey(prims, store, k)) == StoredEntry(s, store, k)
    {
      var key := RightsKey(prims, store, k);
      forall store': Store, k': Key | RightsKey(prims, store', k') == key
        ensures store' == store && k' == k
      {
        RightsKeyInjective(prims, store', k', store, k);
      }
      if StoredEntry(s, store, k).Some? {
        assert key in trie && trie[key] == EntryAt(prims, s, key);
      }
    }
  }

  /** The rights chain's block that the relay root includes is the one whose state is `s`. */
  ghost predicate Includes(prims: Primitives, committed: Commitments, relayRoot: Root, paraId: u32, s: Chain) {
    match Lookup(committed(relayRoot), ParaHeadKey(prims, paraId))
    case None => false
    case Some(head) =>
      match prims.header(head)
      case None => false
      case Some(state) => state.1 == s.now && Commits(prims, committed(state.0), s)
  }

  /** The relay block is recorded, and includes the state `s` of the rights chain. */
  ghost predicate IncludedAt(prims: Primitives, committed: Commitments, roots: seq<RelayRoot>, paraId: u32, relayBlock: u32, s: Chain) {
    && HasNumber(roots, relayBlock)
    && forall i :: 0 <= i < |roots| && roots[i].number == relayBlock ==> Includes(prims, committed, roots[i].root, paraId, s)
  }

  /**
    The premises of the agreement can be met together: for every state of the rights chain and every
    relay block of a window there are a sound reader, commitments by which that block includes the
    state, and proofs whose three answers are accepted.
  */
  lemma {:induction false} AgreementIsPossible(
      hashes: Primitives, roots: seq<RelayRoot>, paraId: u32, usizeMax: nat, relayBlock: u32, k: Key, s: Chain)
    returns (prims: Primitives, committed: Commitments, claim: Claim)
    requires KeyHashesOk(hashes) && HasNumber(roots, relayBlock)
    ensures prims.twox64 == hashes.twox64 && prims.twox128 == hashes.twox128 && prims.blake128 == hashes.blake128
    ensures ReaderSound(prims, committed) && claim.relayBlock == relayBlock
    ensures IncludedAt(prims, committed, roots, paraId, relayBlock, s)
    ensures VerifyOwnership(prims, roots, paraId, usizeMax, claim, k).Ok?
    ensures VerifySubscription(prims, roots, paraId, usizeMax, claim, k).Ok?
    ensures VerifyViewPack(prims, roots, paraId, usizeMax, claim, k).Ok?
  {
    hide KeyHashesOk;
    hide RightsKey;
    hide ParaHeadKey;
    hide TrieOf;
    hide HasNumber;
    var headKey := ParaHeadKey(hashes, paraId);
    var trie := TrieOf(hashes, s)[headKey := []];
    committed := (root: Root) => trie;
    prims := hashes.(read := (root: Root, nodes: seq<Bytes>, key: Bytes) => Ok(Lookup(trie, key)),
                     header := (head: Bytes) => Some((0, s.now)));
    claim := Claim(relayBlock, [], []);
    CommitmentExists(hashes, s);
    SameHashesSameHeadKey(prims, hashes, paraId);
    forall store: Store, key: Key
      ensures RightsKey(prims, store, key) == RightsKey(hashes, store, key) != headKey
    {
      SameHashesSameKey(prims, hashes, store, key);
      HeadKeyInjective(hashes, paraId, paraId, store, key);
    }
    assert Commits(prims, trie, s);
    assert claim.relayProof + claim.rightsProof == [];
    FindRootIff(roots, relayBlock, 0);
    StoredValuesRoundTrip(
      if k in s.ownership then s.ownership[k] else 0,
      if k in s.subscriptions then s.subscriptions[k] else Subscription(0, false, 0),
      if k in s.viewPacks then s.viewPacks[k] else ViewPack(0, 0));
  }

  lemma {:induction false} SameHashesSameHeadKey(p1: Primitives, p2: Primitives, paraId: u32)
    requires p1.twox64 == p2.twox64
    ensures ParaHeadKey(p1, paraId) == ParaHeadKey(p2, paraId)
  {
  }

  lemma {:induction false} SameHashesSameKey(p1: Primitives, p2: Primitives, store: Store, k: Key)
    requires p1.twox128 == p2.twox128 && p1.blake128 == p2.blake128
    ensures RightsKey(p1, store, k) == RightsKey(p2, store, k)
  {
  }

  /** An accepted reading is the stored entry of the included state, at its block number. */
  lemma {:induction false} EntryIsStored(
      prims: Primitives, committed: Commitments, roots: seq<RelayRoot>, paraId: u32, usizeMax: nat, claim: Claim, store: Store, k: Key, s: Chain)
    requires ReaderSound(prims, committed) && IncludedAt(prims, committed, roots, paraId, claim.relayBlock, s)
    requires ReadEntry(prims, roots, paraId, usizeMax, claim, store, k).Ok?
    ensures ReadEntry(prims, roots, paraId, usizeMax, claim, store, k).value == (StoredEntry(s, store, k), s.now)
  {
    hide ProofBytes;
    hide ParaHeadKey;
    hide RightsKey;
    hide StoredEntry;
    var i := FoundAt(roots, claim.relayBlock);
    var relayRoot := roots[i].root;
    assert Includes(prims, committed, relayRoot, paraId, s);
    var headRead := prims.read(relayRoot, claim.relayProof, ParaHeadKey(prims, paraId));
    assert headRead.Ok? && headRead.value == Lookup(committed(relayRoot), ParaHeadKey(prims, paraId));
    var state := prims.header(headRead.value.value).value;
    var valueRead := prims.read(state.0, claim.rightsProof, RightsKey(prims, store, k));
    assert valueRead.value == Lookup(committed(state.0), RightsKey(prims, store, k)) == StoredEntry(s, store, k);
  }

  /** The submitted nodes prove the chain's head under the relay root and the entry under the head's state root. */
  ghost predicate ProvesAt(prims: Primitives, relayRoot: Root, paraId: u32, claim: Claim, store: Store, k: Key) {
    var head := prims.read(relayRoot, claim.relayProof, ParaHeadKey(prims, paraId));
    && head.Ok? && head.value.Some? && prims.header(head.value.value).Some?
    && prims.read(prims.header(head.value.value).value.0, claim.rightsProof, RightsKey(prims, store, k)).Ok?
  }

  /** The claim is within the size cap and its nodes prove the entry at the recorded relay block. */
  ghost predicate Proves(prims: Primitives, roots: seq<RelayRoot>, paraId: u32, claim: Claim, store: Store, k: Key) {
    && Size(claim.relayProof) + Size(claim.rightsProof) <= 16_384
    && exists i :: 0 <= i < |roots| && roots[i].number == claim.relayBlock && ProvesAt(prims, roots[i].root, paraId, claim, store, k)
  }

  lemma {:induction false} ReadIff(
      prims: Primitives, roots: seq<RelayRoot>, paraId: u32, usizeMax: nat, claim: Claim, store: Store, k: Key)
    requires U32_MAX <= usizeMax && NumbersDistinct(roots)
    ensures ReadEntry(prims, roots, paraId, usizeMax, claim, store, k).Ok? <==> Proves(prims, roots, paraId, claim, store, k)
  {
    hide ProofBytes;
    hide ParaHeadKey;
    hide RightsKey;
    ProofBytesIsTotal(claim.relayProof, claim.rightsProof, usizeMax);
    if FindRoot(roots, claim.relayBlock).Some? {
      var i := FoundAt(roots, claim.relayBlock);
      assert forall j :: 0 <= j < |roots| && roots[j].number == claim.relayBlock ==> j == i;
    } else {
      FindRootIff(roots, claim.relayBlock, 0);
    }
  }

  function ErrorOf<T>(r: Result<T>): Error { if r.Err? then r.error else InvalidProof }

  /** What reading an entry under a recorded relay root checks, in order. */
  function Reading(prims: Primitives, relayRoot: Root, paraId: u32, claim: Claim, store: Store, k: Key): Checks {
    var head := prims.read(relayRoot, claim.relayProof, ParaHeadKey(prims, paraId));
    var bytes := if head.Ok? && head.value.Some? then head.value.value else [];
    var state := if prims.header(bytes).Some? then prims.header(bytes).value else (0, 0);
    var entry := prims.read(state.0, claim.rightsProof, RightsKey(prims, store, k));
    Require(Size(claim.relayProof) + Size(claim.rightsProof) <= 16_384, ProofTooLarge,
    Require(head.Ok?, ErrorOf(head),
    Require(head.Ok? && head.value.Some?, NoRightsHead,
    Require(prims.header(bytes).Some?, DecodingFailed,
    Require(entry.Ok?, ErrorOf(entry),
    Accept)))))
  }

  /** At a recorded relay block a reading is accepted exactly if all its checks hold, and else refused by the first that fails. */
  lemma {:induction false} ReadDecided(
      prims: Primitives, roots: seq<RelayRoot>, relayRoot: Root, paraId: u32, usizeMax: nat, claim: Claim, store: Store, k: Key)
    requires U32_MAX <= usizeMax && NumbersDistinct(roots) && RelayRoot(claim.relayBlock, relayRoot) in roots
    ensures Decides(Reading(prims, relayRoot, paraId, claim, store, k), ReadEntry(prims, roots, paraId, usizeMax, claim, store, k))
  {
    hide ProofBytes;
    hide ParaHeadKey;
    hide RightsKey;
    hide NumbersDistinct;
    ProofBytesIsTotal(claim.relayProof, claim.rightsProof, usizeMax);
    FindRootIff(roots, claim.relayBlock, relayRoot);
    var checks := Reading(prims, relayRoot, paraId, claim, store, k);
    RefusalOf(checks.next);
    RefusalOf(checks.next.next);
    RefusalOf(checks.next.next.next);
    RefusalOf(checks.next.next.next.next);
  }

  /** A value that was read answers its question exactly if it is long enough and its flag byte is a boolean. */
  lemma {:induction false} DecodingDecided(
      prims: Primitives, roots: seq<RelayRoot>, paraId: u32, usizeMax: nat, claim: Claim, store: Store, k: Key, bytes: Bytes, block: u32)
    requires ReadEntry(prims, roots, paraId, usizeMax, claim, store, k) == Ok((Some(bytes), block))
    ensures match store
            case OwnershipStore =>
              VerifyOwnership(prims, roots, paraId, usizeMax, claim, k) == if 4 <= |bytes| then Ok(true) else Err(DecodingFailed)
            case SubscriptionStore =>
              var r := VerifySubscription(prims, roots, paraId, usizeMax, claim, k);
              if 9 <= |bytes| && bytes[4] <= 1 then r.Ok? else r == Err(DecodingFailed)
            case ViewPackStore =>
              var r := VerifyViewPack(prims, roots, paraId, usizeMax, claim, k);
              if 8 <= |bytes| then r.Ok? else r == Err(DecodingFailed)
  {
    hide ReadEntry;
  }

  /**
    A claim above the size cap, or at a relay block that is not recorded, is refused with its own error,
    whichever right it is about.
  */
  lemma {:induction false} BadClaimsRefused(
      prims: Primitives, roots: seq<RelayRoot>, paraId: u32, usizeMax: nat, claim: Claim, k: Key, e: Error)
    requires U32_MAX <= usizeMax
    requires var size := Size(claim.relayProof) + Size(claim.rightsProof);
             (size > 16_384 && e == ProofTooLarge)
             || (size <= 16_384 && !HasNumber(roots, claim.relayBlock) && e == UnknownRelayBlock)
    ensures VerifyOwnership(prims, roots, paraId, usizeMax, claim, k) == Err(e)
    ensures VerifySubscription(prims, roots, paraId, usizeMax, claim, k) == Err(e)
    ensures VerifyViewPack(prims, roots, paraId, usizeMax, claim, k) == Err(e)
  {
    hide ProofBytes;
    hide RightsKey;
    hide HasNumber;
    ProofBytesIsTotal(claim.relayProof, claim.rightsProof, usizeMax);
    FindRootIff(roots, claim.relayBlock, 0);
  }

  lemma {:induction false} StoredEntriesDecode(s: Chain, k: Key)
    ensures k in s.ownership ==> DecodeOwnership(EncodeOwnership(s.ownership[k])).Some?
    ensures k in s.subscriptions ==> DecodeSubscription(EncodeSubscription(s.subscriptions[k])).Some?
    ensures k in s.viewPacks ==> DecodeViewPack(EncodeViewPack(s.viewPacks[k])).Some?
  {
    hide DecodeOwnership;
    hide DecodeSubscription;
    hide DecodeViewPack;
    StoredValuesRoundTrip(
      if k in s.ownership then s.ownership[k] else 0,
      if k in s.subscriptions then s.subscriptions[k] else Subscription(0, false, 0),
      if k in s.viewPacks then s.viewPacks[k] else ViewPack(0, 0));
  }

  /**
    For any reports the verifier has seen, each of the three questions is answered exactly if the claim
    is within the size cap and its nodes prove the entry at a recorded relay block: an honest proof is
    never refused, because what the rights chain stores always decodes.
  */
  lemma {:induction false} AnsweredIffProved(
      prims: Primitives, committed: Commitments, reports: seq<Option<RelayRoot>>, max: nat, paraId: u32, usizeMax: nat,
      claim: Claim, k: Key, s: Chain)
    requires U32_MAX <= usizeMax && 1 <= max && ReaderSound(prims, committed)
    requires IncludedAt(prims, committed, Window(reports, max), paraId, claim.relayBlock, s)
    ensures var roots := Window(reports, max);
            && (VerifyOwnership(prims, roots, paraId, usizeMax, claim, k).Ok? <==> Proves(prims, roots, paraId, claim, OwnershipStore, k))
            && (VerifySubscription(prims, roots, paraId, usizeMax, claim, k).Ok? <==> Proves(prims, roots, paraId, claim, SubscriptionStore, k))
            && (VerifyViewPack(prims, roots, paraId, usizeMax, claim, k).Ok? <==> Proves(prims, roots, paraId, claim, ViewPackStore, k))
  {
    hide ReadEntry;
    hide ReaderSound;
    hide IncludedAt;
    hide Proves;
    hide Window;
    hide EncodeOwnership;
    hide EncodeSubscription;
    hide EncodeViewPack;
    hide DecodeOwnership;
    hide DecodeSubscription;
    hide DecodeViewPack;
    hide NumbersDistinct;
    hide AllReported;
    var roots := Window(reports, max);
    WindowIsSound(reports, max);
    StoredEntriesDecode(s, k);
    ReadIff(prims, roots, paraId, usizeMax, claim, OwnershipStore, k);
    ReadIff(prims, roots, paraId, usizeMax, claim, SubscriptionStore, k);
    ReadIff(prims, roots, paraId, usizeMax, claim, ViewPackStore, k);
    if ReadEntry(prims, roots, paraId, usizeMax, claim, OwnershipStore, k).Ok? {
      EntryIsStored(prims, committed, roots, paraId, usizeMax, claim, OwnershipStore, k, s);
    }
    if ReadEntry(prims, roots, paraId, usizeMax, claim, SubscriptionStore, k).Ok? {
      EntryIsStored(prims, committed, roots, paraId, usizeMax, claim, SubscriptionStore, k, s);
    }
    if ReadEntry(prims, roots, paraId, usizeMax, claim, ViewPackStore, k).Ok? {
      EntryIsStored(prims, committed, roots, paraId, usizeMax, claim, ViewPackStore, k, s);
    }
  }

  /** Accepted answers state exactly what is stored, for any proof nodes the caller supplies. */
  lemma {:induction false} AnswersAreTrue(
      prims: Primitives, committed: Commitments, roots: seq<RelayRoot>, paraId: u32, usizeMax: nat, claim: Claim, k: Key, s: Chain)
    requires ReaderSound(prims, committed) && IncludedAt(prims, committed, roots, paraId, claim.relayBlock, s)
    ensures VerifyOwnership(prims, roots, paraId, usizeMax, claim, k).Ok? ==>
              VerifyOwnership(prims, roots, paraId, usizeMax, claim, k).value == (k in s.ownership)
    ensures VerifySubscription(prims, roots, paraId, usizeMax, claim, k).Ok? ==>
              VerifySubscription(prims, roots, paraId, usizeMax, claim, k).value ==
              if k in s.subscriptions then (s.now < s.subscriptions[k].expiry, s.subscriptions[k].expiry) else (false, 0)
    ensures VerifyViewPack(prims, roots, paraId, usizeMax, claim, k).Ok? ==>
              VerifyViewPack(prims, roots, paraId, usizeMax, claim, k).value ==
              if k in s.viewPacks then (s.viewPacks[k].views > 0, s.viewPacks[k].views) else (false, 0)
  {
    hide ReadEntry;
    hide ReaderSound;
    hide IncludedAt;
    hide EncodeOwnership;
    hide EncodeSubscription;
    hide EncodeViewPack;
    hide DecodeOwnership;
    hide DecodeSubscription;
    hide DecodeViewPack;
    StoredValuesRoundTrip(
      if k in s.ownership then s.ownership[k] else 0,
      if k in s.subscriptions then s.subscriptions[k] else Subscription(0, false, 0),
      if k in s.viewPacks then s.viewPacks[k] else ViewPack(0, 0));
    if ReadEntry(prims, roots, paraId, usizeMax, claim, OwnershipStore, k).Ok? {
      EntryIsStored(prims, committed, roots, paraId, usizeMax, claim, OwnershipStore, k, s);
    }
    if ReadEntry(prims, roots, paraId, usizeMax, claim, SubscriptionStore, k).Ok? {
      EntryIsStored(prims, committed, roots, paraId, usizeMax, claim, SubscriptionStore, k, s);
    }
    if ReadEntry(prims, roots, paraId, usizeMax, claim, ViewPackStore, k).Ok? {
      EntryIsStored(prims, committed, roots, paraId, usizeMax, claim, ViewPackStore, k, s);
    }
  }

  /** The three answers combined by priority. */
  function Combine(owner: bool, active: bool, views: bool): Option<RightsType> {
    if owner then Some(OwnershipRight) else if active then Some(SubscriptionRight) else if views then Some(PayPerViewRight) else None
  }

  /**
    Three accepted answers at one relay block, each with any proofs, combine to what `access_rights`
    says on the rights chain in the block included there.
  */
  lemma {:induction false} RemoteAnswersAgree(
      prims: Primitives, committed: Commitments, roots: seq<RelayRoot>, paraId: u32, usizeMax: nat, k: Key, s: Chain,
      c1: Claim, c2: Claim, c3: Claim)
    requires ReaderSound(prims, committed) && c1.relayBlock == c2.relayBlock == c3.relayBlock
    requires IncludedAt(prims, committed, roots, paraId, c1.relayBlock, s)
    requires VerifyOwnership(prims, roots, paraId, usizeMax, c1, k).Ok?
    requires VerifySubscription(prims, roots, paraId, usizeMax, c2, k).Ok?
    requires VerifyViewPack(prims, roots, paraId, usizeMax, c3, k).Ok?
    ensures AccessRights(s, k) == Combine(VerifyOwnership(prims, roots, paraId, usizeMax, c1, k).value,
                                          VerifySubscription(prims, roots, paraId, usizeMax, c2, k).value.0,
                                          VerifyViewPack(prims, roots, paraId, usizeMax, c3, k).value.0)
  {
    hide ReadEntry;
    hide ReaderSound;
    hide IncludedAt;
    AnswersAreTrue(prims, committed, roots, paraId, usizeMax, c1, k, s);
    AnswersAreTrue(prims, committed, roots, paraId, usizeMax, c2, k, s);
    AnswersAreTrue(prims, committed, roots, paraId, usizeMax, c3, k, s);
  }

  // ---------- EVM reader ----------

  /** `checkAccess` of the precompile: 0 subscription, 1 pay-per-view, 2 ownership, 3 none. */
  function CheckAccess(s: Chain, content: u32, who: Account): Result<u32> {
    if content !in s.contents then Err(ContentNotFound)
    else if Key(content, who) in s.ownership then Ok(2)
    else if Key(content, who) in s.subscriptions && s.now < s.subscriptions[Key(content, who)].expiry then Ok(0)
    else if Key(content, who) in s.viewPacks && s.viewPacks[Key(content, who)].views > 0 then Ok(1)
    else Ok(3)
  }

  /** The code of an access decision. */
  function Code(right: Option<RightsType>): u32 {
    match right
    case None => 3
    case Some(SubscriptionRight) => 0
    case Some(PayPerViewRight) => 1
    case Some(OwnershipRight) => 2
  }

  /**
    On every reachable state `access_rights_of` is the decision the whole log implies, which is none
    for an unknown content; `checkAccess` reverts exactly for those and otherwise returns its code.
  */
  lemma {:induction false} EvmAnswersAgree(s: Chain, steps: seq<Step>, content: u32, who: Account)
    requires IsGenesis(s)
    ensures var r := Run(s, steps);
            var k := Key(content, who);
            && AccessRightsOf(r, k) == Theorems.Decision(r.log, r.contents, k, r.now)
            && (content !in r.contents ==> AccessRightsOf(r, k) == None)
            && (CheckAccess(r, content, who).Err? <==> content !in r.contents)
            && (content in r.contents ==> CheckAccess(r, content, who) == Ok(Code(AccessRightsOf(r, k))))
  {
    hide Run;
    hide Theorems.Decision;
    Theorems.AccessRefinesHistory(s, steps, Key(content, who));
    if content !in Run(s, steps).contents {
      Theorems.NoRightsToUnknown(s, steps, Key(content, who));
    }
  }
}
