/**
 * Save-block placement and re-keying: the three save blocks live in RAM
 * regions that each end with a 128-byte slack area, and every heap reset
 * moves them to a fresh 4-aligned offset inside their region, copying
 * through the heap, then re-encrypts the encrypted fields under a new key.
 * Also here: clearing the blocks (including the new-game-plus variant that
 * keeps the Pokedex and PC items), the continue-game warp flag, and the
 * copies of party, object events and bag between the save block and RAM.
 *
 * Memory is modelled as byte arrays. The structures' sizes and field
 * offsets come from headers that are not part of this model and are given
 * by a `Layout`.
 */
module SaveBlocks {
  import opened Common

  const SAVEBLOCK_MOVE_RANGE := 128
  /** struct ItemSlot is two u16 values. */
  const ITEM_SLOT_SIZE := 4

  /** sizeof(gPlayerParty): PARTY_SIZE, that is 6, Pokemon. */
  function PartyBytes(l: Layout): nat { 6 * l.monSize }

  /** sizeof(gObjectEvents): OBJECT_EVENTS_COUNT, that is 16, object events. */
  function ObjectEventsBytes(l: Layout): nat { 16 * l.objectEventSize }

  /** The bytes of `count` item slots. */
  function SlotsSize(count: nat): nat { 4 * count }
  /** Items, medicine, collectibles, key items, balls, TMs and HMs, berries, mega stones. */
  const POCKETS_COUNT := 8
  const POCKET_ITEMS := 0
  const POCKET_MEDICINE := 1
  const POCKET_COLLECTIBLES := 2
  /** ClearSav1_NewGamePlus parks the PC items in a 400-byte heap buffer. */
  const PC_ITEMS_BUFFER := 400
  /** The value of a NULL callback or pointer. */
  const NULL := 0

  // ---------------------------------------------------------------------
  // Bytes and little-endian fields.
  // ---------------------------------------------------------------------

  /** Two halves written into a buffer of their joint length make their concatenation. */
  lemma CopyIntoHalves(d: seq<bv8>, a: seq<bv8>, b: seq<bv8>)
    requires |d| == |a| + |b|
    ensures CopyInto(CopyInto(d, 0, a), |a|, b) == a + b
  {
    CopyIntoAdjacent(d, 0, a, b);
    CopyIntoWhole(d, a + b);
  }

  /** Writing a sequence's own bytes back leaves it unchanged. */
  lemma CopyIntoOwn(d: seq<bv8>, at: nat, n: nat)
    requires at + n <= |d|
    ensures CopyInto(d, at, d[at .. at + n]) == d
  {
    assert d[..at] + d[at .. at + n] + d[at + n..] == d;
  }

  function Zeros(n: nat): (r: seq<bv8>)
    ensures |r| == n && forall k | 0 <= k < n :: r[k] == 0
  {
    seq(n, _ => 0)
  }

  /** The four bytes of a u32, least significant first. */
  function LeBytes32(v: bv32): (r: seq<bv8>)
    ensures |r| == 4
  {
    [(v & 0xFF) as bv8, ((v >> 8) & 0xFF) as bv8, ((v >> 16) & 0xFF) as bv8, (v >> 24) as bv8]
  }

  /** The u32 four bytes spell, least significant first. */
  function LeWord32(b: seq<bv8>): bv32
    requires |b| == 4
  {
    (b[0] as bv32) | ((b[1] as bv32) << 8) | ((b[2] as bv32) << 16) | ((b[3] as bv32) << 24)
  }

  lemma LeWord32OfBytes(v: bv32)
    ensures LeWord32(LeBytes32(v)) == v
  {
  }

  lemma LeBytes32OfWord(b: seq<bv8>)
    requires |b| == 4
    ensures LeBytes32(LeWord32(b)) == b
  {
  }

  /** The two bytes of a u16, least significant first. */
  function LeBytes16(v: bv16): (r: seq<bv8>)
    ensures |r| == 2
  {
    [(v & 0xFF) as bv8, (v >> 8) as bv8]
  }

  /** The u16 two bytes spell, least significant first. */
  function LeWord16(b: seq<bv8>): bv16
    requires |b| == 2
  {
    (b[0] as bv16) | ((b[1] as bv16) << 8)
  }

  lemma LeWord16OfBytes(v: bv16)
    ensures LeWord16(LeBytes16(v)) == v
  {
  }

  lemma LeBytes16OfWord(b: seq<bv8>)
    requires |b| == 2
    ensures LeBytes16(LeWord16(b)) == b
  {
  }

  /** Byte-wise exclusive or of `a` with the first |a| bytes of `b`. */
  function XorBytes(a: seq<bv8>, b: seq<bv8>): (r: seq<bv8>)
    requires |a| <= |b|
    ensures |r| == |a|
  {
    seq(|a|, k requires 0 <= k < |a| => a[k] ^ b[k])
  }

  // ---------------------------------------------------------------------
  // Encryption keys.
  // ---------------------------------------------------------------------

  /** The low 16 bits of a key: what `u16 ^= u32` uses. */
  function Low16(key: bv32): bv16 { (key & 0xFFFF) as bv16 }

  /**
   * ApplyNewEncryptionKeyToWord and ApplyNewEncryptionKeyToHword on the
   * bytes of an encrypted field: the field is xored with the current key,
   * then with the new one. Keys are the four little-endian bytes of the
   * u32; a u16 field meets only the first two of them, the low half that
   * `u16 ^= u32` keeps.
   */
  function ReKeyField(field: seq<bv8>, currentKey: seq<bv8>, newKey: seq<bv8>): (r: seq<bv8>)
    requires |field| <= 4 && |currentKey| == 4 && |newKey| == 4
    ensures |r| == |field|
  {
    XorBytes(XorBytes(field, currentKey), newKey)
  }

  /**
   * The point of re-keying: the field decrypts under the new key to what
   * it decrypted to under the old one, and re-keying back from the new key
   * to the old restores it.
   */
  lemma ReKeyFieldKeepsPlaintext(field: seq<bv8>, currentKey: seq<bv8>, newKey: seq<bv8>)
    requires |field| <= 4 && |currentKey| == 4 && |newKey| == 4
    ensures XorBytes(ReKeyField(field, currentKey, newKey), newKey) == XorBytes(field, currentKey)
    ensures ReKeyField(ReKeyField(field, currentKey, newKey), newKey, currentKey) == field
  {
    var r := ReKeyField(field, currentKey, newKey);
    assert XorBytes(r, newKey) == XorBytes(field, currentKey);
    assert ReKeyField(r, newKey, currentKey) == field;
  }

  /** On a u32 field the byte-wise re-keying is `word ^ currentKey ^ newKey`. */
  lemma ReKeyFieldIsWordXor(field: seq<bv8>, currentKey: seq<bv8>, newKey: seq<bv8>)
    requires |field| == 4 && |currentKey| == 4 && |newKey| == 4
    ensures LeWord32(ReKeyField(field, currentKey, newKey)) == LeWord32(field) ^ LeWord32(currentKey) ^ LeWord32(newKey)
  {
  }

  /** On a u16 field it is `hword ^ currentKey ^ newKey` truncated to 16 bits. */
  lemma ReKeyFieldIsHwordXor(field: seq<bv8>, currentKey: seq<bv8>, newKey: seq<bv8>)
    requires |field| == 2 && |currentKey| == 4 && |newKey| == 4
    ensures LeWord16(ReKeyField(field, currentKey, newKey))
            == LeWord16(field) ^ Low16(LeWord32(currentKey)) ^ Low16(LeWord32(newKey))
  {
  }

  // ---------------------------------------------------------------------
  // Layout of the structures.
  // ---------------------------------------------------------------------

  /**
   * Sizes of SaveBlock2, SaveBlock1 and PokemonStorage and the offsets of
   * the fields this file touches; the bag pockets of SaveBlock1 are listed
   * in the order of struct LoadedSaveData.
   */
  datatype Layout = Layout(
    sb2Size: nat, sb1Size: nat, storageSize: nat,
    trainerIdAt: nat, encryptionKeyAt: nat, warpFlagsAt: nat, continueGameWarp: bv8,
    moneyAt: nat, coinsAt: nat,
    dexSeenAt: nat, dexCaughtAt: nat, dexFlagsCount: nat,
    pcItemsAt: nat, pcItemsCount: nat,
    partyCountAt: nat, partyAt: nat, monSize: nat,
    objectEventsAt: nat, objectEventSize: nat,
    pocketsAt: seq<nat>, pocketCounts: seq<nat>)

  predicate Disjoint(a: nat, n: nat, b: nat, m: nat) { a + n <= b || b + m <= a }

  /** Each structure contains a u32, so its size is a multiple of 4. */
  predicate SizesAligned(l: Layout)
  {
    l.sb2Size % 4 == 0 && l.sb1Size % 4 == 0 && l.storageSize % 4 == 0
  }

  /** The SaveBlock2 fields lie inside SaveBlock2. */
  predicate Sb2FieldsFit(l: Layout)
  {
    l.trainerIdAt + 4 <= l.sb2Size && l.encryptionKeyAt + 4 <= l.sb2Size
    && l.warpFlagsAt < l.sb2Size && l.continueGameWarp != 0
  }

  /** The encrypted money (u32) and coins (u16) of SaveBlock1, apart from each other. */
  predicate PurseFits(l: Layout)
  {
    l.moneyAt + 4 <= l.sb1Size && l.coinsAt + 2 <= l.sb1Size && Disjoint(l.moneyAt, 4, l.coinsAt, 2)
  }

  /** The Pokedex flags and the PC items kept by the new-game-plus clear, apart from each other. */
  predicate KeptFieldsFit(l: Layout)
  {
    l.dexSeenAt + l.dexFlagsCount <= l.sb1Size && l.dexCaughtAt + l.dexFlagsCount <= l.sb1Size
    && l.pcItemsAt + SlotsSize(l.pcItemsCount) <= l.sb1Size
    && SlotsSize(l.pcItemsCount) <= PC_ITEMS_BUFFER
    && Disjoint(l.dexSeenAt, l.dexFlagsCount, l.dexCaughtAt, l.dexFlagsCount)
    && Disjoint(l.dexSeenAt, l.dexFlagsCount, l.pcItemsAt, SlotsSize(l.pcItemsCount))
    && Disjoint(l.dexCaughtAt, l.dexFlagsCount, l.pcItemsAt, SlotsSize(l.pcItemsCount))
  }

  /** The party count and the party, apart from each other, and the object events. */
  predicate PartyFits(l: Layout)
  {
    l.partyCountAt < l.sb1Size && l.partyAt + PartyBytes(l) <= l.sb1Size
    && Disjoint(l.partyCountAt, 1, l.partyAt, PartyBytes(l))
    && l.objectEventsAt + ObjectEventsBytes(l) <= l.sb1Size
  }

  /** No two bag pockets overlap. */
  predicate PocketsApart(l: Layout)
    requires PocketsFit(l)
  {
    forall p, q | 0 <= p < q < POCKETS_COUNT ::
      Disjoint(l.pocketsAt[p], SlotsSize(l.pocketCounts[p]), l.pocketsAt[q], SlotsSize(l.pocketCounts[q]))
  }

  /** What the structure definitions guarantee about sizes and offsets. */
  predicate LayoutValid(l: Layout)
  {
    SizesAligned(l) && Sb2FieldsFit(l) && PurseFits(l) && KeptFieldsFit(l) && PartyFits(l)
    && PocketsFit(l) && PocketsApart(l)
  }

  /** The eight bag pockets lie inside SaveBlock1. */
  predicate PocketsFit(l: Layout)
  {
    |l.pocketsAt| == POCKETS_COUNT && |l.pocketCounts| == POCKETS_COUNT
    && (forall p | 0 <= p < POCKETS_COUNT :: l.pocketsAt[p] + SlotsSize(l.pocketCounts[p]) <= l.sb1Size)
  }

  /** Item slots in the pockets before pocket p. */
  function SlotsBefore(counts: seq<nat>, p: nat): nat
    requires p <= |counts|
  {
    if p == 0 then 0 else SlotsBefore(counts, p - 1) + counts[p - 1]
  }

  lemma {:induction false} SlotsBeforeMonotone(counts: seq<nat>, p: nat, q: nat)
    requires p <= q <= |counts|
    ensures SlotsBefore(counts, p) <= SlotsBefore(counts, q)
    ensures p < q ==> SlotsBefore(counts, p) + counts[p] <= SlotsBefore(counts, q)
  {
    if p < q {
      SlotsBeforeMonotone(counts, p, q - 1);
    }
  }

  /** Offset of pocket p inside struct LoadedSaveData. */
  function LoadedAt(l: Layout, p: nat): nat
    requires p <= |l.pocketCounts|
  {
    SlotsSize(SlotsBefore(l.pocketCounts, p))
  }

  /** Pocket q of struct LoadedSaveData ends at or before the start of any later pocket. */
  lemma LoadedAtApart(l: Layout, q: nat, r: nat)
    requires q < r <= |l.pocketCounts|
    ensures LoadedAt(l, q) + SlotsSize(l.pocketCounts[q]) <= LoadedAt(l, r)
  {
    SlotsBeforeMonotone(l.pocketCounts, q, r);
  }

  /** sizeof(struct LoadedSaveData). */
  function LoadedSize(l: Layout): nat
  {
    LoadedAt(l, |l.pocketCounts|)
  }

  // ---------------------------------------------------------------------
  // Pure views of SaveBlock1 and SaveBlock2 contents.
  // ---------------------------------------------------------------------

  /** Pocket p of a SaveBlock1 image. */
  function Pocket(l: Layout, block: seq<bv8>, p: nat): (r: seq<bv8>)
    requires PocketsFit(l) && |block| == l.sb1Size && p < POCKETS_COUNT
    ensures |r| == SlotsSize(l.pocketCounts[p])
  {
    block[l.pocketsAt[p] .. l.pocketsAt[p] + SlotsSize(l.pocketCounts[p])]
  }

  /**
   * The loaded data `d` with pockets `from` to `to - 1` of a SaveBlock1
   * image copied in, each at its own offset in struct LoadedSaveData.
   */
  function LoadedFrom(l: Layout, block: seq<bv8>, d: seq<bv8>, from: nat, to: nat): (r: seq<bv8>)
    requires PocketsFit(l) && |block| == l.sb1Size && |d| == LoadedSize(l) && from <= to <= POCKETS_COUNT
    ensures |r| == |d|
  {
    if to == from then d
    else
      SlotsBeforeMonotone(l.pocketCounts, to, |l.pocketCounts|);
      CopyInto(LoadedFrom(l, block, d, from, to - 1), LoadedAt(l, to - 1), Pocket(l, block, to - 1))
  }

  /** Loading one more pocket. */
  lemma LoadedFromNext(l: Layout, block: seq<bv8>, d: seq<bv8>, from: nat, p: nat)
    requires PocketsFit(l) && |block| == l.sb1Size && |d| == LoadedSize(l) && from <= p < POCKETS_COUNT
    ensures LoadedAt(l, p) + SlotsSize(l.pocketCounts[p]) <= |d|
    ensures LoadedFrom(l, block, d, from, p + 1)
            == CopyInto(LoadedFrom(l, block, d, from, p), LoadedAt(l, p), Pocket(l, block, p))
  {
    SlotsBeforeMonotone(l.pocketCounts, p + 1, |l.pocketCounts|);
  }

  /** Pocket p copied from the SaveBlock1 at `base` of a region extends the loaded data by one pocket. */
  lemma LoadPocketStep(l: Layout, s: seq<bv8>, base: nat, d: seq<bv8>, from: nat, p: nat)
    requires PocketsFit(l) && base + l.sb1Size <= |s| && |d| == LoadedSize(l) && from <= p < POCKETS_COUNT
    ensures LoadedAt(l, p) + SlotsSize(l.pocketCounts[p]) <= |d|
    ensures base + l.pocketsAt[p] + SlotsSize(l.pocketCounts[p]) <= |s|
    ensures CopyInto(LoadedFrom(l, s[base .. base + l.sb1Size], d, from, p), LoadedAt(l, p),
                     s[base + l.pocketsAt[p] .. base + l.pocketsAt[p] + SlotsSize(l.pocketCounts[p])])
            == LoadedFrom(l, s[base .. base + l.sb1Size], d, from, p + 1)
  {
    LoadedFromNext(l, s[base .. base + l.sb1Size], d, from, p);
    SliceOfSlice(s, base, l.sb1Size, l.pocketsAt[p], SlotsSize(l.pocketCounts[p]));
  }

  /** Every pocket loaded sits at its own offset of the loaded data. */
  lemma {:induction false} LoadedFromHolds(l: Layout, block: seq<bv8>, d: seq<bv8>, from: nat, to: nat, q: nat)
    requires PocketsFit(l) && |block| == l.sb1Size && |d| == LoadedSize(l) && from <= q < to <= POCKETS_COUNT
    ensures HoldsPocket(l, block, LoadedFrom(l, block, d, from, to), q)
  {
    var prev := LoadedFrom(l, block, d, from, to - 1);
    LoadedFromNext(l, block, d, from, to - 1);
    if q == to - 1 {
      CopyIntoSpan(prev, LoadedAt(l, q), Pocket(l, block, q));
    } else {
      LoadedFromHolds(l, block, d, from, to - 1, q);
      LoadedAtApart(l, q, to - 1);
      var lo, hi := LoadedAt(l, q), LoadedAt(l, q) + SlotsSize(l.pocketCounts[q]);
      CopyIntoOutside(prev, LoadedAt(l, to - 1), Pocket(l, block, to - 1), lo, hi);
    }
  }

  /** Loading pockets `from` onwards leaves the loaded data before pocket `from` as it was. */
  lemma {:induction false} LoadedFromBelow(l: Layout, block: seq<bv8>, d: seq<bv8>, from: nat, to: nat)
    requires PocketsFit(l) && |block| == l.sb1Size && |d| == LoadedSize(l) && from <= to <= POCKETS_COUNT
    ensures LoadedAt(l, from) <= |d|
    ensures LoadedFrom(l, block, d, from, to)[..LoadedAt(l, from)] == d[..LoadedAt(l, from)]
  {
    SlotsBeforeMonotone(l.pocketCounts, from, |l.pocketCounts|);
    if from < to {
      LoadedFromBelow(l, block, d, from, to - 1);
      SlotsBeforeMonotone(l.pocketCounts, from, to - 1);
      SlotsBeforeMonotone(l.pocketCounts, to, |l.pocketCounts|);
      CopyIntoOutside(LoadedFrom(l, block, d, from, to - 1), LoadedAt(l, to - 1), Pocket(l, block, to - 1),
                      0, LoadedAt(l, from));
    }
  }

  /** A SaveBlock1 image with the first p pockets written back from the loaded data. */
  function SavedPockets(l: Layout, block: seq<bv8>, loaded: seq<bv8>, p: nat): (r: seq<bv8>)
    requires PocketsFit(l) && |block| == l.sb1Size && |loaded| == LoadedSize(l) && p <= POCKETS_COUNT
    ensures |r| == |block|
  {
    if p == 0 then block
    else
      SlotsBeforeMonotone(l.pocketCounts, p - 1, |l.pocketCounts|);
      CopyInto(SavedPockets(l, block, loaded, p - 1), l.pocketsAt[p - 1],
               loaded[LoadedAt(l, p - 1) .. LoadedAt(l, p)])
  }

  /** Whether the loaded data holds pocket q of the block at pocket q's own offset. */
  predicate HoldsPocket(l: Layout, block: seq<bv8>, loaded: seq<bv8>, q: nat)
    requires PocketsFit(l) && |block| == l.sb1Size && q < POCKETS_COUNT
  {
    LoadedAt(l, q) + SlotsSize(l.pocketCounts[q]) <= |loaded|
    && loaded[LoadedAt(l, q) .. LoadedAt(l, q) + SlotsSize(l.pocketCounts[q])] == Pocket(l, block, q)
  }

  /** Writing back the first p pockets of loaded data that holds them leaves the block unchanged. */
  lemma {:induction false} SaveKeepsHeldPockets(l: Layout, block: seq<bv8>, loaded: seq<bv8>, p: nat)
    requires PocketsFit(l) && |block| == l.sb1Size && |loaded| == LoadedSize(l) && p <= POCKETS_COUNT
    requires forall q | 0 <= q < p :: HoldsPocket(l, block, loaded, q)
    ensures SavedPockets(l, block, loaded, p) == block
  {
    if p > 0 {
      SaveKeepsHeldPockets(l, block, loaded, p - 1);
      SavedPocketsLast(l, block, loaded, p);
      assert HoldsPocket(l, block, loaded, p - 1);
      CopyIntoOwn(block, l.pocketsAt[p - 1], SlotsSize(l.pocketCounts[p - 1]));
    }
  }

  /** Saving the bag straight after loading all of it writes every pocket back unchanged. */
  lemma SaveAfterLoadKeepsPockets(l: Layout, block: seq<bv8>, d: seq<bv8>)
    requires PocketsFit(l) && |block| == l.sb1Size && |d| == LoadedSize(l)
    ensures SavedPockets(l, block, LoadedFrom(l, block, d, 0, |l.pocketCounts|), |l.pocketCounts|) == block
  {
    var loaded := LoadedFrom(l, block, d, 0, |l.pocketCounts|);
    forall q | 0 <= q < |l.pocketCounts|
      ensures HoldsPocket(l, block, loaded, q)
    {
      LoadedFromHolds(l, block, d, 0, |l.pocketCounts|, q);
    }
    SaveKeepsHeldPockets(l, block, loaded, |l.pocketCounts|);
  }

  /** Pocket p - 1 is the last one written back. */
  lemma SavedPocketsLast(l: Layout, block: seq<bv8>, loaded: seq<bv8>, p: nat)
    requires PocketsFit(l) && |block| == l.sb1Size && |loaded| == LoadedSize(l) && 0 < p <= POCKETS_COUNT
    ensures LoadedAt(l, p - 1) + SlotsSize(l.pocketCounts[p - 1]) <= |loaded|
    ensures SavedPockets(l, block, loaded, p)
            == CopyInto(SavedPockets(l, block, loaded, p - 1), l.pocketsAt[p - 1],
                        loaded[LoadedAt(l, p - 1) .. LoadedAt(l, p - 1) + SlotsSize(l.pocketCounts[p - 1])])
  {
    SlotsBeforeMonotone(l.pocketCounts, p, |l.pocketCounts|);
    assert LoadedAt(l, p) == LoadedAt(l, p - 1) + SlotsSize(l.pocketCounts[p - 1]);
  }

  /**
   * LoadPlayerBag as written: the medicine and the collectible pockets are
   * loaded over the start of the items pocket, and the loaded medicine and
   * collectible pockets keep what they held.
   */
  function LoadedPocketsAsWritten(l: Layout, block: seq<bv8>, loaded: seq<bv8>): (r: seq<bv8>)
    requires PocketsFit(l) && |block| == l.sb1Size && |loaded| == LoadedSize(l)
    ensures |r| == |loaded|
  {
    SlotsBeforeMonotone(l.pocketCounts, 1, |l.pocketCounts|);
    SlotsBeforeMonotone(l.pocketCounts, 2, |l.pocketCounts|);
    SlotsBeforeMonotone(l.pocketCounts, 3, |l.pocketCounts|);
    var withItems := CopyInto(loaded, LoadedAt(l, 0), Pocket(l, block, POCKET_ITEMS));
    var withMedicine := CopyInto(withItems, LoadedAt(l, 0), Pocket(l, block, POCKET_MEDICINE));
    var withCollectibles := CopyInto(withMedicine, LoadedAt(l, 0), Pocket(l, block, POCKET_COLLECTIBLES));
    LoadedFrom(l, block, withCollectibles, 3, |l.pocketCounts|)
  }

  /** LoadedPocketsAsWritten as the three stores to the items array followed by the remaining pocket loops. */
  lemma LoadedPocketsAsWrittenSteps(l: Layout, block: seq<bv8>, d: seq<bv8>, w1: seq<bv8>, w2: seq<bv8>, w3: seq<bv8>)
    requires PocketsFit(l) && |block| == l.sb1Size && |d| == LoadedSize(l)
    requires SlotsSize(l.pocketCounts[POCKET_ITEMS]) <= |d| && w1 == CopyInto(d, LoadedAt(l, 0), Pocket(l, block, POCKET_ITEMS))
    requires SlotsSize(l.pocketCounts[POCKET_MEDICINE]) <= |d| && w2 == CopyInto(w1, LoadedAt(l, 0), Pocket(l, block, POCKET_MEDICINE))
    requires SlotsSize(l.pocketCounts[POCKET_COLLECTIBLES]) <= |d|
    requires w3 == CopyInto(w2, LoadedAt(l, 0), Pocket(l, block, POCKET_COLLECTIBLES))
    ensures LoadedPocketsAsWritten(l, block, d) == LoadedFrom(l, block, w3, 3, |l.pocketCounts|)
  {
  }

  /**
   * As written, loading then saving the bag replaces the first item slot
   * with the first collectible slot whenever both pockets have a slot and
   * the two slots differ.
   */
  lemma LoadAsWrittenLosesFirstItem(l: Layout, block: seq<bv8>, loaded: seq<bv8>)
    requires PocketsFit(l) && PocketsApart(l) && |block| == l.sb1Size && |loaded| == LoadedSize(l)
    requires l.pocketCounts[POCKET_ITEMS] > 0 && l.pocketCounts[POCKET_COLLECTIBLES] > 0
    requires Pocket(l, block, POCKET_ITEMS)[..ITEM_SLOT_SIZE] != Pocket(l, block, POCKET_COLLECTIBLES)[..ITEM_SLOT_SIZE]
    ensures |loaded| >= ITEM_SLOT_SIZE
            && LoadedPocketsAsWritten(l, block, loaded)[..ITEM_SLOT_SIZE] == Pocket(l, block, POCKET_COLLECTIBLES)[..ITEM_SLOT_SIZE]
    ensures SavedPockets(l, block, LoadedPocketsAsWritten(l, block, loaded), |l.pocketCounts|) != block
  {
    LoadedAsWrittenFirstSlot(l, block, loaded);
    var lw := LoadedPocketsAsWritten(l, block, loaded);
    SavedFirstItem(l, block, lw, |l.pocketCounts|);
    var saved := SavedPockets(l, block, lw, |l.pocketCounts|);
    assert saved[l.pocketsAt[POCKET_ITEMS] .. l.pocketsAt[POCKET_ITEMS] + ITEM_SLOT_SIZE] == lw[..ITEM_SLOT_SIZE];
    assert block[l.pocketsAt[POCKET_ITEMS] .. l.pocketsAt[POCKET_ITEMS] + ITEM_SLOT_SIZE]
        == Pocket(l, block, POCKET_ITEMS)[..ITEM_SLOT_SIZE];
  }

  /** As written, the first loaded slot is the first collectible slot. */
  lemma LoadedAsWrittenFirstSlot(l: Layout, block: seq<bv8>, loaded: seq<bv8>)
    requires PocketsFit(l) && |block| == l.sb1Size && |loaded| == LoadedSize(l)
    requires l.pocketCounts[POCKET_ITEMS] > 0 && l.pocketCounts[POCKET_COLLECTIBLES] > 0
    ensures |loaded| >= ITEM_SLOT_SIZE
            && LoadedPocketsAsWritten(l, block, loaded)[..ITEM_SLOT_SIZE] == Pocket(l, block, POCKET_COLLECTIBLES)[..ITEM_SLOT_SIZE]
  {
    SlotsBeforeMonotone(l.pocketCounts, 1, |l.pocketCounts|);
    SlotsBeforeMonotone(l.pocketCounts, 2, |l.pocketCounts|);
    SlotsBeforeMonotone(l.pocketCounts, 3, |l.pocketCounts|);
    var col := Pocket(l, block, POCKET_COLLECTIBLES);
    var withItems := CopyInto(loaded, 0, Pocket(l, block, POCKET_ITEMS));
    var withMedicine := CopyInto(withItems, 0, Pocket(l, block, POCKET_MEDICINE));
    var withCollectibles := CopyInto(withMedicine, 0, col);
    var lw := LoadedPocketsAsWritten(l, block, loaded);
    assert lw == LoadedFrom(l, block, withCollectibles, 3, |l.pocketCounts|);
    LoadedFromBelow(l, block, withCollectibles, 3, |l.pocketCounts|);
    CopyIntoSpan(withMedicine, 0, col);
    assert lw[..ITEM_SLOT_SIZE] == lw[..LoadedAt(l, 3)][..ITEM_SLOT_SIZE];
    assert withCollectibles[..ITEM_SLOT_SIZE] == withCollectibles[..LoadedAt(l, 3)][..ITEM_SLOT_SIZE];
    assert withCollectibles[..ITEM_SLOT_SIZE] == withCollectibles[0 .. |col|][..ITEM_SLOT_SIZE];
  }

  /** Pockets written after the items pocket leave its first slot as the loaded data's first slot. */
  lemma {:induction false} SavedFirstItem(l: Layout, block: seq<bv8>, loaded: seq<bv8>, p: nat)
    requires PocketsFit(l) && PocketsApart(l) && |block| == l.sb1Size && |loaded| == LoadedSize(l)
    requires 1 <= p <= POCKETS_COUNT && l.pocketCounts[POCKET_ITEMS] > 0 && |loaded| >= ITEM_SLOT_SIZE
    ensures SavedPockets(l, block, loaded, p)[l.pocketsAt[POCKET_ITEMS] .. l.pocketsAt[POCKET_ITEMS] + ITEM_SLOT_SIZE]
            == loaded[..ITEM_SLOT_SIZE]
  {
    var at := l.pocketsAt[POCKET_ITEMS];
    var s := SavedPockets(l, block, loaded, p);
    SlotsBeforeMonotone(l.pocketCounts, 0, |l.pocketCounts|);
    SlotsBeforeMonotone(l.pocketCounts, p - 1, |l.pocketCounts|);
    if p == 1 {
      var src := loaded[LoadedAt(l, 0) .. LoadedAt(l, 1)];
      assert s[at .. at + |src|] == src;
      assert s[at .. at + ITEM_SLOT_SIZE] == s[at .. at + |src|][..ITEM_SLOT_SIZE];
    } else {
      SavedFirstItem(l, block, loaded, p - 1);
      assert Disjoint(l.pocketsAt[0], SlotsSize(l.pocketCounts[0]),
                      l.pocketsAt[p - 1], SlotsSize(l.pocketCounts[p - 1]));
      CopyIntoOutside(SavedPockets(l, block, loaded, p - 1), l.pocketsAt[p - 1],
                      loaded[LoadedAt(l, p - 1) .. LoadedAt(l, p)], at, at + ITEM_SLOT_SIZE);
    }
  }

  // ---------------------------------------------------------------------
  // Writes inside a block seen from its region.
  // ---------------------------------------------------------------------

  /** A write at `base + at` is a write at `at` of the block starting at `base`. */
  lemma CopyIntoNested(s: seq<bv8>, base: nat, n: nat, at: nat, src: seq<bv8>)
    requires base + n <= |s| && at + |src| <= n
    ensures CopyInto(s, base + at, src) == CopyInto(s, base, CopyInto(s[base .. base + n], at, src))
  {
    var lhs := CopyInto(s, base + at, src);
    var inner := CopyInto(s[base .. base + n], at, src);
    var rhs := CopyInto(s, base, inner);
    forall k | 0 <= k < |s|
      ensures lhs[k] == rhs[k]
    {
      if base <= k < base + n {
        assert rhs[k] == rhs[base .. base + n][k - base];
        if base + at <= k < base + at + |src| {
          assert lhs[k] == lhs[base + at .. base + at + |src|][k - base - at];
          assert inner[k - base] == inner[at .. at + |src|][k - base - at];
        }
      }
    }
  }

  /** Writing a block twice keeps the second write. */
  lemma CopyIntoTwice(s: seq<bv8>, at: nat, a: seq<bv8>, b: seq<bv8>)
    requires at + |a| <= |s| && |a| == |b|
    ensures CopyInto(CopyInto(s, at, a), at, b) == CopyInto(s, at, b)
  {
    var lhs := CopyInto(CopyInto(s, at, a), at, b);
    var rhs := CopyInto(s, at, b);
    forall k | 0 <= k < |s|
      ensures lhs[k] == rhs[k]
    {
      if at <= k < at + |b| {
        assert lhs[k] == lhs[at .. at + |b|][k - at];
        assert rhs[k] == rhs[at .. at + |b|][k - at];
      }
    }
  }

  lemma SliceOfSlice(s: seq<bv8>, base: nat, n: nat, at: nat, m: nat)
    requires base + n <= |s| && at + m <= n
    ensures s[base .. base + n][at .. at + m] == s[base + at .. base + at + m]
  {
    var t := s[base .. base + n];
    forall k | base + at <= k < base + at + m
      ensures s[k] == t[k - base]
    {
    }
  }

  // ---------------------------------------------------------------------
  // Memory primitives.
  // ---------------------------------------------------------------------

  /** The bytes CpuCopy32 moves for a size: whole 32-bit words only. */
  function Words(size: nat): (r: nat)
    ensures r <= size && r % 4 == 0 && size - r < 4
  {
    size / 4 * 4
  }

  /** The bytes CpuFill16 fills for a size: whole 16-bit halfwords only. */
  function Halfwords(size: nat): (r: nat)
    ensures r <= size && r % 2 == 0 && size - r < 2
  {
    size / 2 * 2
  }

  lemma WordsOfAligned(size: nat)
    requires size % 4 == 0
    ensures Words(size) == size && Words(size + 1) == size
  {
  }

  lemma HalfwordsOfEven(size: nat)
    requires size % 2 == 0
    ensures Halfwords(size) == size
  {
  }

  /** A single byte store. */
  method StoreByte(a: array<bv8>, at: nat, v: bv8)
    requires at < a.Length
    modifies a
    ensures a[..] == old(a[..])[at := v]
  {
    a[at] := v;
  }

  /**
   * A structure assignment of `size` bytes between two distinct buffers;
   * a loop assigning the elements of one array of structures to another
   * is one such copy of the whole span.
   */
  method CopyBytes(src: array<bv8>, srcAt: nat, dst: array<bv8>, dstAt: nat, size: nat)
    requires src != dst
    requires srcAt + size <= src.Length && dstAt + size <= dst.Length
    modifies dst
    ensures dst[..] == CopyInto(old(dst[..]), dstAt, old(src[srcAt .. srcAt + size]))
  {
    var i := 0;
    while i < size
      invariant 0 <= i <= size
      invariant forall k | 0 <= k < dst.Length ::
        dst[k] == if dstAt <= k < dstAt + i then src[srcAt + k - dstAt] else old(dst[k])
    {
      dst[dstAt + i] := src[srcAt + i];
      i := i + 1;
    }
    var want := CopyInto(old(dst[..]), dstAt, src[srcAt .. srcAt + size]);
    forall k | 0 <= k < dst.Length
      ensures dst[k] == want[k]
    {
      if dstAt <= k < dstAt + size {
        assert want[k] == want[dstAt .. dstAt + size][k - dstAt];
      }
    }
  }

  /** CpuCopy32: copies size / 4 words. */
  method CpuCopy32(src: array<bv8>, srcAt: nat, dst: array<bv8>, dstAt: nat, size: nat)
    requires src != dst
    requires srcAt + Words(size) <= src.Length && dstAt + Words(size) <= dst.Length
    modifies dst
    ensures dst[..] == CopyInto(old(dst[..]), dstAt, old(src[srcAt .. srcAt + Words(size)]))
  {
    CopyBytes(src, srcAt, dst, dstAt, Words(size));
  }

  /** CpuFill16 with the value 0: clears size / 2 halfwords. */
  method CpuFill16Zero(dst: array<bv8>, dstAt: nat, size: nat)
    requires dstAt + Halfwords(size) <= dst.Length
    modifies dst
    ensures dst[..] == CopyInto(old(dst[..]), dstAt, Zeros(Halfwords(size)))
  {
    var n := Halfwords(size);
    var i := 0;
    while i < n
      invariant 0 <= i <= n
      invariant forall k | 0 <= k < dst.Length ::
        dst[k] == if dstAt <= k < dstAt + i then 0 else old(dst[k])
    {
      dst[dstAt + i] := 0;
      i := i + 1;
    }
    var want := CopyInto(old(dst[..]), dstAt, Zeros(n));
    forall k | 0 <= k < dst.Length
      ensures dst[k] == want[k]
    {
      if dstAt <= k < dstAt + n {
        assert want[k] == want[dstAt .. dstAt + n][k - dstAt];
      }
    }
  }

  /** Stores `v` little-endian at `at`. */
  method WriteU32(a: array<bv8>, at: nat, v: bv32)
    requires at + 4 <= a.Length
    modifies a
    ensures a[..] == CopyInto(old(a[..]), at, LeBytes32(v))
  {
    var b := LeBytes32(v);
    a[at], a[at + 1], a[at + 2], a[at + 3] := b[0], b[1], b[2], b[3];
    assert a[..] == CopyInto(old(a[..]), at, b);
  }

  /** Stores `v` little-endian at `at`. */
  method WriteU16(a: array<bv8>, at: nat, v: bv16)
    requires at + 2 <= a.Length
    modifies a
    ensures a[..] == CopyInto(old(a[..]), at, LeBytes16(v))
  {
    var b := LeBytes16(v);
    a[at], a[at + 1] := b[0], b[1];
    assert a[..] == CopyInto(old(a[..]), at, b);
  }

  // ---------------------------------------------------------------------
  // Block placement.
  // ---------------------------------------------------------------------

  /**
   * The block offset SetSaveBlocksPointers derives from its u16 argument
   * and a u16 random value: `(offset + Random()) & (SAVEBLOCK_MOVE_RANGE - 4)`.
   * The sum is non-negative, so the mask 0x7C, which keeps bits 2 to 6, is
   * the sum reduced modulo 128 and rounded down to a multiple of 4.
   */
  function BlockOffset(offset: nat, rand: nat): (r: nat)
    requires offset < 0x1_0000 && rand < 0x1_0000
    ensures r % 4 == 0 && r <= SAVEBLOCK_MOVE_RANGE - 4
    ensures r <= (offset + rand) % SAVEBLOCK_MOVE_RANGE < r + 4
  {
    (offset + rand) % SAVEBLOCK_MOVE_RANGE / 4 * 4
  }

  /** An offset a block pointer may take inside its region. */
  predicate PointerOk(p: nat) { p % 4 == 0 && p <= SAVEBLOCK_MOVE_RANGE - 4 }

  /** The argument MoveSaveBlocks_ResetHeap passes: the sum of the four trainer id bytes. */
  function TrainerIdSum(l: Layout, sb2: seq<bv8>): (r: nat)
    requires Sb2FieldsFit(l) && |sb2| == l.sb2Size
    ensures r <= 4 * 0xFF
  {
    sb2[l.trainerIdAt] as nat + sb2[l.trainerIdAt + 1] as nat
    + sb2[l.trainerIdAt + 2] as nat + sb2[l.trainerIdAt + 3] as nat
  }

  /** The key `(Random() << 16) + Random()`: one call's value is the high half, the other's the low half; C does not fix which call runs first. */
  function NewKey(high: bv16, low: bv16): (r: bv32)
    ensures (r >> 16) as bv16 == high && Low16(r) == low
  {
    ((high as bv32) << 16) + (low as bv32)
  }

  /** The four key bytes a SaveBlock2 image holds. */
  function KeyOf(l: Layout, sb2: seq<bv8>): (r: seq<bv8>)
    requires Sb2FieldsFit(l) && |sb2| == l.sb2Size
    ensures |r| == 4
  {
    sb2[l.encryptionKeyAt .. l.encryptionKeyAt + 4]
  }

  /** A SaveBlock1 image with money (u32) and coins (u16) re-encrypted from `currentKey` to `newKey`, money first. */
  function ReKeyedSb1(l: Layout, sb1: seq<bv8>, currentKey: seq<bv8>, newKey: seq<bv8>): (r: seq<bv8>)
    requires PurseFits(l) && |sb1| == l.sb1Size && |currentKey| == 4 && |newKey| == 4
    ensures |r| == |sb1|
  {
    var withMoney := CopyInto(sb1, l.moneyAt, ReKeyField(sb1[l.moneyAt .. l.moneyAt + 4], currentKey, newKey));
    CopyInto(withMoney, l.coinsAt, ReKeyField(withMoney[l.coinsAt .. l.coinsAt + 2], currentKey, newKey))
  }

  /** ReKeyedSb1 as the two writes the re-keying methods make, money first. */
  lemma ReKeyedSb1Steps(l: Layout, sb1: seq<bv8>, withMoney: seq<bv8>, currentKey: seq<bv8>, newKey: seq<bv8>)
    requires PurseFits(l) && |sb1| == l.sb1Size && |currentKey| == 4 && |newKey| == 4
    requires withMoney == CopyInto(sb1, l.moneyAt, ReKeyField(sb1[l.moneyAt .. l.moneyAt + 4], currentKey, newKey))
    ensures ReKeyedSb1(l, sb1, currentKey, newKey)
            == CopyInto(withMoney, l.coinsAt, ReKeyField(withMoney[l.coinsAt .. l.coinsAt + 2], currentKey, newKey))
  {
  }

  /** Re-keying a block re-keys its money and its coins and changes no other byte. */
  lemma ReKeyedSb1Fields(l: Layout, sb1: seq<bv8>, currentKey: seq<bv8>, newKey: seq<bv8>)
    requires PurseFits(l) && |sb1| == l.sb1Size && |currentKey| == 4 && |newKey| == 4
    ensures var r := ReKeyedSb1(l, sb1, currentKey, newKey);
            r[l.moneyAt .. l.moneyAt + 4] == ReKeyField(sb1[l.moneyAt .. l.moneyAt + 4], currentKey, newKey)
            && r[l.coinsAt .. l.coinsAt + 2] == ReKeyField(sb1[l.coinsAt .. l.coinsAt + 2], currentKey, newKey)
            && forall k | 0 <= k < |sb1| && !(l.moneyAt <= k < l.moneyAt + 4) && !(l.coinsAt <= k < l.coinsAt + 2) ::
                 r[k] == sb1[k]
  {
    var withMoney := CopyInto(sb1, l.moneyAt, ReKeyField(sb1[l.moneyAt .. l.moneyAt + 4], currentKey, newKey));
    var r := CopyInto(withMoney, l.coinsAt, ReKeyField(withMoney[l.coinsAt .. l.coinsAt + 2], currentKey, newKey));
    assert withMoney[l.coinsAt .. l.coinsAt + 2] == sb1[l.coinsAt .. l.coinsAt + 2];
    CopyIntoSpan(sb1, l.moneyAt, ReKeyField(sb1[l.moneyAt .. l.moneyAt + 4], currentKey, newKey));
    CopyIntoSpan(withMoney, l.coinsAt, ReKeyField(sb1[l.coinsAt .. l.coinsAt + 2], currentKey, newKey));
    assert r[l.moneyAt .. l.moneyAt + 4] == withMoney[l.moneyAt .. l.moneyAt + 4];
  }

  /**
   * After a heap reset the money and coins still decrypt to what they did:
   * the re-keyed SaveBlock1 read with the key the updated SaveBlock2
   * holds gives the plaintext the old block gave under the old key.
   */
  lemma MoveKeepsPurse(l: Layout, sb1: seq<bv8>, sb2: seq<bv8>, newKey: bv32)
    requires PurseFits(l) && Sb2FieldsFit(l) && |sb1| == l.sb1Size && |sb2| == l.sb2Size
    ensures var moved := ReKeyedSb1(l, sb1, KeyOf(l, sb2), LeBytes32(newKey));
            var key := KeyOf(l, CopyInto(sb2, l.encryptionKeyAt, LeBytes32(newKey)));
            XorBytes(moved[l.moneyAt .. l.moneyAt + 4], key) == XorBytes(sb1[l.moneyAt .. l.moneyAt + 4], KeyOf(l, sb2))
            && XorBytes(moved[l.coinsAt .. l.coinsAt + 2], key) == XorBytes(sb1[l.coinsAt .. l.coinsAt + 2], KeyOf(l, sb2))
  {
    CopyIntoSpan(sb2, l.encryptionKeyAt, LeBytes32(newKey));
    ReKeyedSb1Fields(l, sb1, KeyOf(l, sb2), LeBytes32(newKey));
    ReKeyFieldKeepsPlaintext(sb1[l.moneyAt .. l.moneyAt + 4], KeyOf(l, sb2), LeBytes32(newKey));
    ReKeyFieldKeepsPlaintext(sb1[l.coinsAt .. l.coinsAt + 2], KeyOf(l, sb2), LeBytes32(newKey));
  }

  // ---------------------------------------------------------------------
  // Clearing, warp flag, party and objects, on block images.
  // ---------------------------------------------------------------------

  /**
   * The SaveBlock1 region after ClearSav1_NewGamePlus with the block at
   * `base`: all zero but for the Pokedex flags and PC items put back.
   */
  function NewGamePlusRegion(l: Layout, region: seq<bv8>, base: nat): (r: seq<bv8>)
    requires KeptFieldsFit(l) && base + l.sb1Size <= |region|
    ensures |r| == |region|
  {
    var n := l.dexFlagsCount;
    var pcBytes := SlotsSize(l.pcItemsCount);
    var seen := region[base + l.dexSeenAt .. base + l.dexSeenAt + n];
    var caught := region[base + l.dexCaughtAt .. base + l.dexCaughtAt + n];
    var pc := region[base + l.pcItemsAt .. base + l.pcItemsAt + pcBytes];
    CopyInto(CopyInto(CopyInto(Zeros(|region|), base + l.dexSeenAt, seen), base + l.dexCaughtAt, caught),
             base + l.pcItemsAt, pc)
  }

  /** NewGamePlusRegion as the three copies over a zeroed region, named for the method that builds it. */
  lemma NewGamePlusRegionSteps(l: Layout, region: seq<bv8>, base: nat, seen: seq<bv8>, caught: seq<bv8>, pc: seq<bv8>)
    requires KeptFieldsFit(l) && base + l.sb1Size <= |region|
    requires seen == region[base + l.dexSeenAt .. base + l.dexSeenAt + l.dexFlagsCount]
    requires caught == region[base + l.dexCaughtAt .. base + l.dexCaughtAt + l.dexFlagsCount]
    requires pc == region[base + l.pcItemsAt .. base + l.pcItemsAt + SlotsSize(l.pcItemsCount)]
    ensures NewGamePlusRegion(l, region, base)
            == CopyInto(CopyInto(CopyInto(Zeros(|region|), base + l.dexSeenAt, seen), base + l.dexCaughtAt, caught),
                        base + l.pcItemsAt, pc)
  {
  }

  /** Whether byte k of a region is one that the new-game-plus clear keeps. */
  predicate KeptByNewGamePlus(l: Layout, base: nat, k: nat)
  {
    base + l.dexSeenAt <= k < base + l.dexSeenAt + l.dexFlagsCount
    || base + l.dexCaughtAt <= k < base + l.dexCaughtAt + l.dexFlagsCount
    || base + l.pcItemsAt <= k < base + l.pcItemsAt + SlotsSize(l.pcItemsCount)
  }

  /**
   * After the new-game-plus clear the seen and caught flags and the PC
   * items are what they were, and every other byte of the region, slack
   * included, is zero.
   */
  lemma NewGamePlusKeepsDexAndPcItems(l: Layout, region: seq<bv8>, base: nat, k: nat)
    requires KeptFieldsFit(l) && base + l.sb1Size <= |region| && k < |region|
    ensures NewGamePlusRegion(l, region, base)[k] == if KeptByNewGamePlus(l, base, k) then region[k] else 0
  {
    var n := l.dexFlagsCount;
    var pcBytes := SlotsSize(l.pcItemsCount);
    var seenAt, caughtAt, pcAt := base + l.dexSeenAt, base + l.dexCaughtAt, base + l.pcItemsAt;
    var seen := region[seenAt .. seenAt + n];
    var caught := region[caughtAt .. caughtAt + n];
    var pc := region[pcAt .. pcAt + pcBytes];
    var s1 := CopyInto(Zeros(|region|), seenAt, seen);
    var s2 := CopyInto(s1, caughtAt, caught);
    CopyIntoAt(Zeros(|region|), seenAt, seen, k);
    CopyIntoAt(s1, caughtAt, caught, k);
    CopyIntoAt(s2, pcAt, pc, k);
  }

  /** specialSaveWarpFlags after SetContinueGameWarpStatus: the warp bit set, every other bit kept. */
  function WarpSet(flags: bv8, mask: bv8): (r: bv8)
    requires mask != 0
    ensures r & mask != 0
    ensures r & !mask == flags & !mask
  {
    flags | mask
  }

  /** specialSaveWarpFlags after ClearContinueGameWarpStatus: the warp bit cleared, every other bit kept. */
  function WarpCleared(flags: bv8, mask: bv8): (r: bv8)
    ensures r & mask == 0
    ensures r & !mask == flags & !mask
  {
    flags & !mask
  }

  /** A SaveBlock1 image after SavePlayerParty. */
  function SavedParty(l: Layout, sb1: seq<bv8>, count: bv8, party: seq<bv8>): (r: seq<bv8>)
    requires PartyFits(l) && |sb1| == l.sb1Size && |party| == PartyBytes(l)
    ensures |r| == |sb1|
    ensures r[l.partyCountAt] == count
    ensures r[l.partyAt .. l.partyAt + PartyBytes(l)] == party
    ensures forall k | 0 <= k < |sb1| && k != l.partyCountAt && !(l.partyAt <= k < l.partyAt + |party|) :: r[k] == sb1[k]
  {
    CopyInto(sb1[l.partyCountAt := count], l.partyAt, party)
  }

  /** A SaveBlock1 image after SaveObjectEvents. */
  function SavedObjects(l: Layout, sb1: seq<bv8>, objects: seq<bv8>): (r: seq<bv8>)
    requires PartyFits(l) && |sb1| == l.sb1Size && |objects| == ObjectEventsBytes(l)
    ensures |r| == |sb1|
    ensures r[l.objectEventsAt .. l.objectEventsAt + |objects|] == objects
    ensures forall k | 0 <= k < |sb1| && !(l.objectEventsAt <= k < l.objectEventsAt + |objects|) :: r[k] == sb1[k]
  {
    CopyInto(sb1, l.objectEventsAt, objects)
  }

  /** The `oldDex` buffer of ClearSav1_NewGamePlus: the seen flags, then the caught flags. */
  method BackupDex(region: array<bv8>, seenAt: nat, caughtAt: nat, n: nat) returns (oldDex: array<bv8>)
    requires seenAt + n <= region.Length && caughtAt + n <= region.Length
    ensures fresh(oldDex)
    ensures oldDex.Length == 2 * n
    ensures oldDex[0 .. n] == region[seenAt .. seenAt + n]
    ensures oldDex[n .. n + n] == region[caughtAt .. caughtAt + n]
  {
    oldDex := new bv8[2 * n];
    ghost var blank := oldDex[..];
    CopyBytes(region, seenAt, oldDex, 0, n);
    CopyBytes(region, caughtAt, oldDex, n, n);
    CopyIntoHalves(blank, region[seenAt .. seenAt + n], region[caughtAt .. caughtAt + n]);
  }

  /** The `newItems` buffer of ClearSav1_NewGamePlus: PC_ITEMS_COUNT item slots in 400 bytes. */
  method BackupPcItems(region: array<bv8>, pcAt: nat, pcBytes: nat) returns (newItems: array<bv8>)
    requires pcAt + pcBytes <= region.Length && pcBytes <= PC_ITEMS_BUFFER
    ensures fresh(newItems)
    ensures newItems.Length == PC_ITEMS_BUFFER
    ensures newItems[0 .. pcBytes] == region[pcAt .. pcAt + pcBytes]
  {
    newItems := new bv8[PC_ITEMS_BUFFER];
    CopyBytes(region, pcAt, newItems, 0, pcBytes);
  }

  /** The second half of ClearSav1_NewGamePlus: the parked flags and items written back into a zeroed region. */
  method RestoreKept(region: array<bv8>, oldDex: array<bv8>, newItems: array<bv8>,
                     seenAt: nat, caughtAt: nat, pcAt: nat, n: nat, pcBytes: nat)
    requires region != oldDex && region != newItems
    requires oldDex.Length == 2 * n && pcBytes <= newItems.Length
    requires seenAt + n <= region.Length && caughtAt + n <= region.Length && pcAt + pcBytes <= region.Length
    modifies region
    ensures region[..] == CopyInto(CopyInto(CopyInto(old(region[..]), seenAt, oldDex[0 .. n]),
                                            caughtAt, oldDex[n .. n + n]), pcAt, newItems[0 .. pcBytes])
  {
    CopyBytes(oldDex, 0, region, seenAt, n);
    CopyBytes(oldDex, n, region, caughtAt, n);
    CopyBytes(newItems, 0, region, pcAt, pcBytes);
  }

  /** The body of ClearSav1_NewGamePlus on the SaveBlock1 region with the block at `base`. */
  method ClearRegionNewGamePlus(l: Layout, region: array<bv8>, base: nat)
    requires KeptFieldsFit(l) && base + l.sb1Size <= region.Length && region.Length % 2 == 0
    modifies region
    ensures region[..] == NewGamePlusRegion(l, old(region[..]), base)
  {
    var n := l.dexFlagsCount;
    var pcBytes := SlotsSize(l.pcItemsCount);
    var seenAt, caughtAt, pcAt := base + l.dexSeenAt, base + l.dexCaughtAt, base + l.pcItemsAt;
    ghost var r0 := region[..];
    NewGamePlusRegionSteps(l, r0, base, r0[seenAt .. seenAt + n], r0[caughtAt .. caughtAt + n], r0[pcAt .. pcAt + pcBytes]);
    var oldDex := BackupDex(region, seenAt, caughtAt, n);
    var newItems := BackupPcItems(region, pcAt, pcBytes);
    HalfwordsOfEven(region.Length);
    CpuFill16Zero(region, 0, region.Length);
    CopyIntoWhole(r0, Zeros(region.Length));
    RestoreKept(region, oldDex, newItems, seenAt, caughtAt, pcAt, n, pcBytes);
  }

  // ---------------------------------------------------------------------
  // Writes into a block held inside a region.
  // ---------------------------------------------------------------------

  /** A write inside a block already placed in a region is a new placement of the updated block. */
  lemma CopyIntoOver(s: seq<bv8>, base: nat, b: seq<bv8>, at: nat, x: seq<bv8>)
    requires base + |b| <= |s| && at + |x| <= |b|
    ensures CopyInto(CopyInto(s, base, b), base + at, x) == CopyInto(s, base, CopyInto(b, at, x))
  {
    var t := CopyInto(s, base, b);
    CopyIntoNested(t, base, |b|, at, x);
    CopyIntoTwice(s, base, b, CopyInto(b, at, x));
  }

  /** A byte store at `base + at` is a byte store at `at` of the block starting at `base`. */
  lemma UpdateNested(s: seq<bv8>, base: nat, n: nat, at: nat, v: bv8)
    requires base + n <= |s| && at < n
    ensures s[base + at := v] == CopyInto(s, base, s[base .. base + n][at := v])
  {
    var b := s[base .. base + n][at := v];
    forall k | 0 <= k < |s|
      ensures s[base + at := v][k] == CopyInto(s, base, b)[k]
    {
      CopyIntoAt(s, base, b, k);
    }
  }

  /** The count byte and the party bytes stored into a region are SavedParty of its block. */
  lemma StorePartyPlaces(l: Layout, s: seq<bv8>, base: nat, count: bv8, party: seq<bv8>)
    requires PartyFits(l) && base + l.sb1Size <= |s| && |party| == PartyBytes(l)
    ensures CopyInto(s[base + l.partyCountAt := count], base + l.partyAt, party)
            == CopyInto(s, base, SavedParty(l, s[base .. base + l.sb1Size], count, party))
  {
    var b := s[base .. base + l.sb1Size];
    UpdateNested(s, base, l.sb1Size, l.partyCountAt, count);
    CopyIntoOver(s, base, b[l.partyCountAt := count], l.partyAt, party);
  }

  /** Storing back the u32 a field holds changes nothing. */
  lemma StoreOwnWord(s: seq<bv8>, at: nat)
    requires at + 4 <= |s|
    ensures CopyInto(s, at, LeBytes32(LeWord32(s[at .. at + 4]))) == s
  {
    LeBytes32OfWord(s[at .. at + 4]);
    CopyIntoOwn(s, at, 4);
  }

  /** Three blocks copied one after the other from offset 0. */
  lemma CopyIntoThree(h: seq<bv8>, a: seq<bv8>, b: seq<bv8>, c: seq<bv8>)
    requires |a| + |b| + |c| <= |h|
    ensures CopyInto(CopyInto(CopyInto(h, 0, a), |a|, b), |a| + |b|, c) == CopyInto(h, 0, a + b + c)
  {
    CopyIntoAdjacent(h, 0, a, b);
    CopyIntoAdjacent(h, 0, a + b, c);
  }

  /** What the heap copy of the three blocks holds, block by block. */
  lemma BackupSlices(h: seq<bv8>, a: seq<bv8>, b: seq<bv8>, c: seq<bv8>)
    requires |a| + |b| + |c| <= |h|
    ensures CopyInto(h, 0, a + b + c)[0 .. |a|] == a
    ensures CopyInto(h, 0, a + b + c)[|a| .. |a| + |b|] == b
    ensures CopyInto(h, 0, a + b + c)[|a| + |b| .. |a| + |b| + |c|] == c
  {
    var r := CopyInto(h, 0, a + b + c);
    assert r[0 .. |a| + |b| + |c|] == a + b + c;
    SliceOfSlice(r, 0, |a| + |b| + |c|, 0, |a|);
    SliceOfSlice(r, 0, |a| + |b| + |c|, |a|, |b|);
    SliceOfSlice(r, 0, |a| + |b| + |c|, |a| + |b|, |c|);
    assert (a + b + c)[0 .. |a|] == a;
    assert (a + b + c)[|a| .. |a| + |b|] == b;
    assert (a + b + c)[|a| + |b| .. |a| + |b| + |c|] == c;
  }

  /** The money of the block at `base` re-keyed in place, as ApplyNewEncryptionKeyToWord leaves the region. */
  function MoneyReKeyed(l: Layout, s: seq<bv8>, base: nat, currentKey: seq<bv8>, newKey: seq<bv8>): (r: seq<bv8>)
    requires PurseFits(l) && base + l.sb1Size <= |s| && |currentKey| == 4 && |newKey| == 4
    ensures |r| == |s|
  {
    var at := base + l.moneyAt;
    CopyInto(s, at, ReKeyField(s[at .. at + 4], currentKey, newKey))
  }

  /** The coins of the block at `base` re-keyed in place, as ApplyNewEncryptionKeyToHword leaves the region. */
  function CoinsReKeyed(l: Layout, s: seq<bv8>, base: nat, currentKey: seq<bv8>, newKey: seq<bv8>): (r: seq<bv8>)
    requires PurseFits(l) && base + l.sb1Size <= |s| && |currentKey| == 4 && |newKey| == 4
    ensures |r| == |s|
  {
    var at := base + l.coinsAt;
    CopyInto(s, at, ReKeyField(s[at .. at + 2], currentKey, newKey))
  }

  /** Re-keying a field at `base + at` is re-keying the field at `at` of the block starting at `base`. */
  lemma ReKeyFieldNested(s: seq<bv8>, base: nat, n: nat, at: nat, w: nat, currentKey: seq<bv8>, newKey: seq<bv8>)
    requires base + n <= |s| && at + w <= n && w <= 4 && |currentKey| == 4 && |newKey| == 4
    ensures CopyInto(s, base + at, ReKeyField(s[base + at .. base + at + w], currentKey, newKey))
            == CopyInto(s, base, CopyInto(s[base .. base + n], at,
                                          ReKeyField(s[base .. base + n][at .. at + w], currentKey, newKey)))
  {
    SliceOfSlice(s, base, n, at, w);
    CopyIntoNested(s, base, n, at, ReKeyField(s[base + at .. base + at + w], currentKey, newKey));
  }

  /** ApplyNewEncryptionKeyToWord on the money of the block at `base` is a write of the block. */
  lemma MoneyReKeyedPlaces(l: Layout, s: seq<bv8>, base: nat, currentKey: seq<bv8>, newKey: seq<bv8>)
    requires PurseFits(l) && base + l.sb1Size <= |s| && |currentKey| == 4 && |newKey| == 4
    ensures var b := s[base .. base + l.sb1Size];
            MoneyReKeyed(l, s, base, currentKey, newKey)
            == CopyInto(s, base, CopyInto(b, l.moneyAt, ReKeyField(b[l.moneyAt .. l.moneyAt + 4], currentKey, newKey)))
  {
    ReKeyFieldNested(s, base, l.sb1Size, l.moneyAt, 4, currentKey, newKey);
  }

  /** ApplyNewEncryptionKeyToHword on the coins of the block at `base` is a write of the block. */
  lemma CoinsReKeyedPlaces(l: Layout, s: seq<bv8>, base: nat, currentKey: seq<bv8>, newKey: seq<bv8>)
    requires PurseFits(l) && base + l.sb1Size <= |s| && |currentKey| == 4 && |newKey| == 4
    ensures var b := s[base .. base + l.sb1Size];
            CoinsReKeyed(l, s, base, currentKey, newKey)
            == CopyInto(s, base, CopyInto(b, l.coinsAt, ReKeyField(b[l.coinsAt .. l.coinsAt + 2], currentKey, newKey)))
  {
    ReKeyFieldNested(s, base, l.sb1Size, l.coinsAt, 2, currentKey, newKey);
  }

  /** Re-keying money then coins in the region places the re-keyed block. */
  lemma ReKeyedRegion(l: Layout, s: seq<bv8>, base: nat, currentKey: seq<bv8>, newKey: seq<bv8>)
    requires PurseFits(l) && base + l.sb1Size <= |s| && |currentKey| == 4 && |newKey| == 4
    ensures CoinsReKeyed(l, MoneyReKeyed(l, s, base, currentKey, newKey), base, currentKey, newKey)
            == CopyInto(s, base, ReKeyedSb1(l, s[base .. base + l.sb1Size], currentKey, newKey))
  {
    var b := s[base .. base + l.sb1Size];
    var b1 := CopyInto(b, l.moneyAt, ReKeyField(b[l.moneyAt .. l.moneyAt + 4], currentKey, newKey));
    var s1 := MoneyReKeyed(l, s, base, currentKey, newKey);
    MoneyReKeyedPlaces(l, s, base, currentKey, newKey);
    CopyIntoSpan(s, base, b1);
    CoinsReKeyedPlaces(l, s1, base, currentKey, newKey);
    ReKeyedSb1Steps(l, b, b1, currentKey, newKey);
    CopyIntoTwice(s, base, b1, ReKeyedSb1(l, b, currentKey, newKey));
  }

  /** Saving the party just read from a block leaves the block as it was. */
  lemma SaveAfterLoadKeepsParty(l: Layout, sb1: seq<bv8>)
    requires PartyFits(l) && |sb1| == l.sb1Size
    ensures SavedParty(l, sb1, sb1[l.partyCountAt], sb1[l.partyAt .. l.partyAt + PartyBytes(l)]) == sb1
  {
    assert sb1[l.partyCountAt := sb1[l.partyCountAt]] == sb1;
    CopyIntoOwn(sb1, l.partyAt, PartyBytes(l));
  }

  /** Saving the object events just read from a block leaves the block as it was. */
  lemma SaveAfterLoadKeepsObjects(l: Layout, sb1: seq<bv8>)
    requires PartyFits(l) && |sb1| == l.sb1Size
    ensures SavedObjects(l, sb1, sb1[l.objectEventsAt .. l.objectEventsAt + ObjectEventsBytes(l)]) == sb1
  {
    CopyIntoOwn(sb1, l.objectEventsAt, ObjectEventsBytes(l));
  }

  /** One more pocket saved after pockets 0 to `p - 1`. */
  lemma SavePocketStep(l: Layout, block: seq<bv8>, loaded: seq<bv8>, s: seq<bv8>, base: nat, p: nat)
    requires PocketsFit(l) && |block| == l.sb1Size && |loaded| == LoadedSize(l) && p < POCKETS_COUNT
    requires base + l.sb1Size <= |s|
    ensures LoadedAt(l, p) + SlotsSize(l.pocketCounts[p]) <= |loaded|
    ensures CopyInto(CopyInto(s, base, SavedPockets(l, block, loaded, p)), base + l.pocketsAt[p],
                     loaded[LoadedAt(l, p) .. LoadedAt(l, p) + SlotsSize(l.pocketCounts[p])])
            == CopyInto(s, base, SavedPockets(l, block, loaded, p + 1))
  {
    SavedPocketsLast(l, block, loaded, p + 1);
    var saved := SavedPockets(l, block, loaded, p);
    var piece := loaded[LoadedAt(l, p) .. LoadedAt(l, p) + SlotsSize(l.pocketCounts[p])];
    assert l.pocketsAt[p] + |piece| <= |saved|;
    CopyIntoOver(s, base, saved, l.pocketsAt[p], piece);
  }

  /** The bytes ApplyNewEncryptionKeyToWord stores are the re-keyed field. */
  lemma ReKeyWordStored(field: seq<bv8>, currentKey: seq<bv8>, newKey: bv32)
    requires |field| == 4 && |currentKey| == 4
    ensures LeBytes32(LeWord32(field) ^ LeWord32(currentKey) ^ newKey) == ReKeyField(field, currentKey, LeBytes32(newKey))
  {
    ReKeyFieldIsWordXor(field, currentKey, LeBytes32(newKey));
    LeWord32OfBytes(newKey);
    LeBytes32OfWord(ReKeyField(field, currentKey, LeBytes32(newKey)));
  }

  /** The bytes ApplyNewEncryptionKeyToHword stores are the re-keyed field. */
  lemma ReKeyHwordStored(field: seq<bv8>, currentKey: seq<bv8>, newKey: bv32)
    requires |field| == 2 && |currentKey| == 4
    ensures LeBytes16(LeWord16(field) ^ Low16(LeWord32(currentKey)) ^ Low16(newKey))
            == ReKeyField(field, currentKey, LeBytes32(newKey))
  {
    ReKeyFieldIsHwordXor(field, currentKey, LeBytes32(newKey));
    LeWord32OfBytes(newKey);
    LeBytes16OfWord(ReKeyField(field, currentKey, LeBytes32(newKey)));
  }

  /**
   * ApplyNewEncryptionKeyToWord on the u32 at `at`: `currentKey` is the
   * key SaveBlock2 holds when it runs, as its four bytes.
   */
  method ApplyNewEncryptionKeyToWord(region: array<bv8>, at: nat, currentKey: seq<bv8>, newKey: bv32)
    requires at + 4 <= region.Length && |currentKey| == 4
    modifies region
    ensures region[..] == CopyInto(old(region[..]), at, ReKeyField(old(region[at .. at + 4]), currentKey, LeBytes32(newKey)))
  {
    var word := LeWord32(region[at .. at + 4]);
    word := word ^ LeWord32(currentKey);
    word := word ^ newKey;
    ReKeyWordStored(region[at .. at + 4], currentKey, newKey);
    WriteU32(region, at, word);
  }

  /** ApplyNewEncryptionKeyToHword on the u16 at `at`: `u16 ^= u32` keeps the low half of each key. */
  method ApplyNewEncryptionKeyToHword(region: array<bv8>, at: nat, currentKey: seq<bv8>, newKey: bv32)
    requires at + 2 <= region.Length && |currentKey| == 4
    modifies region
    ensures region[..] == CopyInto(old(region[..]), at, ReKeyField(old(region[at .. at + 2]), currentKey, LeBytes32(newKey)))
  {
    var hword := LeWord16(region[at .. at + 2]);
    hword := hword ^ Low16(LeWord32(currentKey));
    hword := hword ^ Low16(newKey);
    ReKeyHwordStored(region[at .. at + 2], currentKey, newKey);
    WriteU16(region, at, hword);
  }

  /** The money and coins steps of ApplyNewEncryptionKeyToAllEncryptedData on the SaveBlock1 at `base`. */
  method ReKeyPurse(l: Layout, region: array<bv8>, base: nat, currentKey: seq<bv8>, newKey: bv32)
    requires PurseFits(l) && base + l.sb1Size <= region.Length && |currentKey| == 4
    modifies region
    ensures region[..] == CopyInto(old(region[..]), base,
                                   ReKeyedSb1(l, old(region[base .. base + l.sb1Size]), currentKey, LeBytes32(newKey)))
  {
    ghost var r0 := region[..];
    ghost var k := LeBytes32(newKey);
    ApplyNewEncryptionKeyToWord(region, base + l.moneyAt, currentKey, newKey);
    ghost var r1 := region[..];
    assert r1 == MoneyReKeyed(l, r0, base, currentKey, k);
    ApplyNewEncryptionKeyToHword(region, base + l.coinsAt, currentKey, newKey);
    assert region[..] == CoinsReKeyed(l, r1, base, currentKey, k);
    ReKeyedRegion(l, r0, base, currentKey, k);
    assert r0[base .. base + l.sb1Size] == old(region[base .. base + l.sb1Size]);
  }

  /**
   * The three CpuCopy32 calls of the backup, each given the block size
   * plus one, which for a multiple of 4 copies exactly the block.
   */
  method CopyBlocksToHeap(r2: array<bv8>, p2: nat, n2: nat, r1: array<bv8>, p1: nat, n1: nat,
                          r3: array<bv8>, p3: nat, n3: nat, heap: array<bv8>)
    requires heap != r2 && heap != r1 && heap != r3
    requires n2 % 4 == 0 && n1 % 4 == 0 && n3 % 4 == 0
    requires p2 + n2 <= r2.Length && p1 + n1 <= r1.Length && p3 + n3 <= r3.Length
    requires n2 + n1 + n3 <= heap.Length
    modifies heap
    ensures heap[..] == CopyInto(old(heap[..]), 0, old(r2[p2 .. p2 + n2]) + old(r1[p1 .. p1 + n1]) + old(r3[p3 .. p3 + n3]))
  {
    ghost var a, b, c := r2[p2 .. p2 + n2], r1[p1 .. p1 + n1], r3[p3 .. p3 + n3];
    WordsOfAligned(n2);
    WordsOfAligned(n1);
    WordsOfAligned(n3);
    ghost var h0 := heap[..];
    CpuCopy32(r2, p2, heap, 0, n2 + 1);
    ghost var h1 := heap[..];
    assert h1 == CopyInto(h0, 0, a);
    CpuCopy32(r1, p1, heap, n2, n1 + 1);
    ghost var h2 := heap[..];
    assert h2 == CopyInto(h1, |a|, b);
    CpuCopy32(r3, p3, heap, n2 + n1, n3 + 1);
    assert heap[..] == CopyInto(h2, |a| + |b|, c);
    CopyIntoThree(h0, a, b, c);
  }

  /**
   * The backup of MoveSaveBlocks_ResetHeap and the argument it passes to
   * SetSaveBlocksPointers: the three blocks copied to the heap, and the sum
   * of the trainer id bytes read from the heap copy of SaveBlock2.
   */
  method BackupToHeap(l: Layout, r2: array<bv8>, p2: nat, r1: array<bv8>, p1: nat, r3: array<bv8>, p3: nat,
                      heap: array<bv8>) returns (sum: nat)
    requires SizesAligned(l) && Sb2FieldsFit(l)
    requires heap != r2 && heap != r1 && heap != r3
    requires p2 + l.sb2Size <= r2.Length && p1 + l.sb1Size <= r1.Length && p3 + l.storageSize <= r3.Length
    requires l.sb2Size + l.sb1Size + l.storageSize <= heap.Length
    modifies heap
    ensures sum == TrainerIdSum(l, r2[p2 .. p2 + l.sb2Size])
    ensures heap[..] == CopyInto(old(heap[..]), 0, r2[p2 .. p2 + l.sb2Size] + r1[p1 .. p1 + l.sb1Size]
                                                  + r3[p3 .. p3 + l.storageSize])
    ensures heap[..][0 .. l.sb2Size] == r2[p2 .. p2 + l.sb2Size]
    ensures heap[..][l.sb2Size .. l.sb2Size + l.sb1Size] == r1[p1 .. p1 + l.sb1Size]
    ensures heap[..][l.sb2Size + l.sb1Size .. l.sb2Size + l.sb1Size + l.storageSize] == r3[p3 .. p3 + l.storageSize]
  {
    ghost var b2, b1, b3 := r2[p2 .. p2 + l.sb2Size], r1[p1 .. p1 + l.sb1Size], r3[p3 .. p3 + l.storageSize];
    ghost var h0 := heap[..];
    CopyBlocksToHeap(r2, p2, l.sb2Size, r1, p1, l.sb1Size, r3, p3, l.storageSize, heap);
    assert r2[p2 .. p2 + l.sb2Size] == b2 && r1[p1 .. p1 + l.sb1Size] == b1 && r3[p3 .. p3 + l.storageSize] == b3;
    assert heap[..] == CopyInto(h0, 0, b2 + b1 + b3);
    BackupSlices(h0, b2, b1, b3);
    assert heap[0 .. l.sb2Size] == heap[..][0 .. l.sb2Size];
    sum := TrainerIdSum(l, heap[0 .. l.sb2Size]);
  }

  /**
   * The copies of MoveSaveBlocks_ResetHeap: the three blocks at `p2`, `p1`
   * and `p3` backed up to the heap, and the heap copies written back at the
   * offset SetSaveBlocksPointers derives from the sum of the trainer id
   * bytes of the heap copy of SaveBlock2 and from `rand`.
   */
  method MoveRegions(l: Layout, r2: array<bv8>, p2: nat, r1: array<bv8>, p1: nat, r3: array<bv8>, p3: nat,
                     heap: array<bv8>, rand: nat, ghost b2: seq<bv8>, ghost b1: seq<bv8>, ghost b3: seq<bv8>)
    returns (sum: nat, at: nat)
    requires SizesAligned(l) && Sb2FieldsFit(l) && rand < 0x1_0000
    requires heap != r2 && heap != r1 && heap != r3 && r2 != r1 && r2 != r3 && r1 != r3
    requires r2.Length == l.sb2Size + SAVEBLOCK_MOVE_RANGE && r1.Length == l.sb1Size + SAVEBLOCK_MOVE_RANGE
    requires r3.Length == l.storageSize + SAVEBLOCK_MOVE_RANGE
    requires PointerOk(p2) && PointerOk(p1) && PointerOk(p3)
    requires l.sb2Size + l.sb1Size + l.storageSize <= heap.Length
    requires b2 == r2[p2 .. p2 + l.sb2Size] && b1 == r1[p1 .. p1 + l.sb1Size] && b3 == r3[p3 .. p3 + l.storageSize]
    modifies r2, r1, r3, heap
    ensures sum == TrainerIdSum(l, b2) && at == BlockOffset(sum, rand)
    ensures r2[..] == CopyInto(old(r2[..]), at, b2)
    ensures r1[..] == CopyInto(old(r1[..]), at, b1)
    ensures r3[..] == CopyInto(old(r3[..]), at, b3)
    ensures heap[..] == CopyInto(old(heap[..]), 0, b2 + b1 + b3)
  {
    sum := BackupToHeap(l, r2, p2, r1, p1, r3, p3, heap);
    BackupSlices(old(heap[..]), b2, b1, b3);
    at := BlockOffset(sum, rand);
    CopyBlocksFromHeap(heap, r2, l.sb2Size, r1, l.sb1Size, r3, l.storageSize, at);
  }

  /**
   * The three CpuCopy32 calls of the restore: each heap copy, one after
   * the other from the start of the heap, written to its region at `at`.
   */
  method CopyBlocksFromHeap(heap: array<bv8>, r2: array<bv8>, n2: nat, r1: array<bv8>, n1: nat,
                            r3: array<bv8>, n3: nat, at: nat)
    requires heap != r2 && heap != r1 && heap != r3 && r2 != r1 && r2 != r3 && r1 != r3
    requires n2 % 4 == 0 && n1 % 4 == 0 && n3 % 4 == 0
    requires n2 + n1 + n3 <= heap.Length
    requires at + n2 <= r2.Length && at + n1 <= r1.Length && at + n3 <= r3.Length
    modifies r2, r1, r3
    ensures r2[..] == CopyInto(old(r2[..]), at, old(heap[..][0 .. n2]))
    ensures r1[..] == CopyInto(old(r1[..]), at, old(heap[..][n2 .. n2 + n1]))
    ensures r3[..] == CopyInto(old(r3[..]), at, old(heap[..][n2 + n1 .. n2 + n1 + n3]))
  {
    WordsOfAligned(n2);
    WordsOfAligned(n1);
    WordsOfAligned(n3);
    CpuCopy32(heap, 0, r2, at, n2);
    CpuCopy32(heap, n2, r1, at, n1);
    CpuCopy32(heap, n2 + n1, r3, at, n3);
  }

  /** gSaveBlock1Ptr->playerPartyCount and the party array written into the SaveBlock1 at `base`. */
  method StoreParty(l: Layout, region: array<bv8>, base: nat, count: bv8, party: array<bv8>)
    requires PartyFits(l) && base + l.sb1Size <= region.Length && party.Length == PartyBytes(l)
    requires region != party
    modifies region
    ensures region[..] == CopyInto(old(region[..]), base, SavedParty(l, old(region[base .. base + l.sb1Size]), count, party[..]))
  {
    ghost var r0, p0 := region[..], party[..];
    StoreByte(region, base + l.partyCountAt, count);
    CopyBytes(party, 0, region, base + l.partyAt, party.Length);
    assert party[0 .. party.Length] == p0;
    StorePartyPlaces(l, r0, base, count, p0);
  }

  /** The object events array written into the SaveBlock1 at `base`. */
  method StoreObjects(l: Layout, region: array<bv8>, base: nat, objects: array<bv8>)
    requires PartyFits(l) && base + l.sb1Size <= region.Length
    requires objects.Length == ObjectEventsBytes(l) && region != objects
    modifies region
    ensures region[..] == CopyInto(old(region[..]), base, SavedObjects(l, old(region[base .. base + l.sb1Size]), objects[..]))
  {
    ghost var r0, block, o := region[..], region[base .. base + l.sb1Size], objects[..];
    CopyBytes(objects, 0, region, base + l.objectEventsAt, objects.Length);
    assert objects[0 .. objects.Length] == o;
    CopyIntoNested(r0, base, l.sb1Size, l.objectEventsAt, o);
    assert SavedObjects(l, block, o) == CopyInto(block, l.objectEventsAt, o);
  }

  /**
   * The pocket loops of LoadPlayerBag from pocket `from` up to `to`: each
   * pocket of the SaveBlock1 at `base` copied to its own offset in the
   * loaded data.
   */
  method LoadPockets(l: Layout, region: array<bv8>, base: nat, bag: array<bv8>, from: nat, to: nat)
    requires PocketsFit(l) && base + l.sb1Size <= region.Length && bag.Length == LoadedSize(l)
    requires region != bag && from <= to <= POCKETS_COUNT
    modifies bag
    ensures bag[..] == LoadedFrom(l, region[base .. base + l.sb1Size], old(bag[..]), from, to)
  {
    ghost var d := bag[..];
    ghost var block := region[base .. base + l.sb1Size];
    var p := from;
    while p < to
      invariant from <= p <= to
      invariant bag[..] == LoadedFrom(l, block, d, from, p)
    {
      LoadPocket(l, region, base, bag, d, from, p);
      p := p + 1;
    }
  }

  /** One loop of LoadPlayerBag: pocket `p` of the SaveBlock1 at `base` copied after pockets `from` to `p - 1`. */
  method LoadPocket(l: Layout, region: array<bv8>, base: nat, bag: array<bv8>, ghost d: seq<bv8>, from: nat, p: nat)
    requires PocketsFit(l) && base + l.sb1Size <= region.Length && bag.Length == LoadedSize(l) && |d| == LoadedSize(l)
    requires region != bag && from <= p < POCKETS_COUNT
    requires bag[..] == LoadedFrom(l, region[base .. base + l.sb1Size], d, from, p)
    modifies bag
    ensures bag[..] == LoadedFrom(l, region[base .. base + l.sb1Size], d, from, p + 1)
  {
    LoadPocketStep(l, region[..], base, d, from, p);
    CopyBytes(region, base + l.pocketsAt[p], bag, LoadedAt(l, p), SlotsSize(l.pocketCounts[p]));
  }

  /** The pocket loops of SavePlayerBag: every pocket of the loaded data written back into the SaveBlock1 at `base`. */
  method SavePockets(l: Layout, region: array<bv8>, base: nat, bag: array<bv8>)
    requires PocketsFit(l) && base + l.sb1Size <= region.Length && bag.Length == LoadedSize(l) && region != bag
    modifies region
    ensures region[..] == CopyInto(old(region[..]), base,
                                   SavedPockets(l, old(region[base .. base + l.sb1Size]), bag[..], |l.pocketCounts|))
  {
    ghost var r0 := region[..];
    ghost var block := region[base .. base + l.sb1Size];
    CopyIntoOwn(r0, base, l.sb1Size);
    var p := 0;
    while p < POCKETS_COUNT
      invariant 0 <= p <= POCKETS_COUNT
      invariant region[..] == CopyInto(r0, base, SavedPockets(l, block, bag[..], p))
    {
      SavePocket(l, region, base, bag, p, r0, block);
      p := p + 1;
    }
  }

  /** One loop of SavePlayerBag: pocket `p` of the loaded data written back after pockets 0 to `p - 1`. */
  method SavePocket(l: Layout, region: array<bv8>, base: nat, bag: array<bv8>, p: nat, ghost r0: seq<bv8>, ghost block: seq<bv8>)
    requires PocketsFit(l) && base + l.sb1Size <= region.Length && bag.Length == LoadedSize(l) && region != bag
    requires p < POCKETS_COUNT && |block| == l.sb1Size && |r0| == region.Length
    requires region[..] == CopyInto(r0, base, SavedPockets(l, block, bag[..], p))
    modifies region
    ensures region[..] == CopyInto(r0, base, SavedPockets(l, block, bag[..], p + 1))
  {
    SavePocketStep(l, block, bag[..], r0, base, p);
    CopyBytes(bag, LoadedAt(l, p), region, base + l.pocketsAt[p], SlotsSize(l.pocketCounts[p]));
  }

  /** One loop of LoadPlayerBag as written: pocket p of the SaveBlock1 at `base` stored to the items array. */
  method LoadPocketToItems(l: Layout, region: array<bv8>, base: nat, bag: array<bv8>, p: nat)
    requires PocketsFit(l) && base + l.sb1Size <= region.Length && bag.Length == LoadedSize(l)
    requires region != bag && p < POCKETS_COUNT
    modifies bag
    ensures SlotsSize(l.pocketCounts[p]) <= bag.Length
    ensures bag[..] == CopyInto(old(bag[..]), LoadedAt(l, 0), Pocket(l, region[base .. base + l.sb1Size], p))
  {
    SlotsBeforeMonotone(l.pocketCounts, p, |l.pocketCounts|);
    CopyBytes(region, base + l.pocketsAt[p], bag, 0, SlotsSize(l.pocketCounts[p]));
    SliceOfSlice(region[..], base, l.sb1Size, l.pocketsAt[p], SlotsSize(l.pocketCounts[p]));
  }

  /** The pocket loops of LoadPlayerBag as written, over the SaveBlock1 at `base`. */
  method LoadBagAsWritten(l: Layout, region: array<bv8>, base: nat, bag: array<bv8>)
    requires PocketsFit(l) && base + l.sb1Size <= region.Length && bag.Length == LoadedSize(l) && region != bag
    modifies bag
    ensures bag[..] == LoadedPocketsAsWritten(l, region[base .. base + l.sb1Size], old(bag[..]))
  {
    ghost var block, d0 := region[base .. base + l.sb1Size], bag[..];
    LoadPocketToItems(l, region, base, bag, POCKET_ITEMS);
    ghost var w1 := bag[..];
    LoadPocketToItems(l, region, base, bag, POCKET_MEDICINE);
    ghost var w2 := bag[..];
    LoadPocketToItems(l, region, base, bag, POCKET_COLLECTIBLES);
    ghost var w3 := bag[..];
    LoadPockets(l, region, base, bag, 3, |l.pocketCounts|);
    LoadedPocketsAsWrittenSteps(l, block, d0, w1, w2, w3);
  }

  /**
   * The key juggling of SavePlayerBag on the u32 at `at`: the current key is
   * backed up, `lastKey` stored, the re-keying (outside this file) sees
   * `during`, and the backup is stored again.
   */
  method SwapKeyAround(region: array<bv8>, at: nat, lastKey: bv32) returns (during: bv32, backup: bv32)
    requires at + 4 <= region.Length
    modifies region
    ensures region[..] == old(region[..])
    ensures during == lastKey && backup == LeWord32(old(region[at .. at + 4]))
  {
    ghost var o := region[..];
    backup := LeWord32(region[at .. at + 4]);
    WriteU32(region, at, lastKey);
    CopyIntoSpan(o, at, LeBytes32(lastKey));
    LeWord32OfBytes(lastKey);
    during := LeWord32(region[at .. at + 4]);
    WriteU32(region, at, backup);
    CopyIntoTwice(o, at, LeBytes32(lastKey), LeBytes32(backup));
    StoreOwnWord(o, at);
  }

  /**
   * SavePlayerBag over the SaveBlock1 at `base` and the key at `keyAt`: the
   * pockets are written back, then the key juggling around the re-keying.
   */
  method SaveBag(l: Layout, region: array<bv8>, base: nat, keyRegion: array<bv8>, keyAt: nat, bag: array<bv8>,
                 lastKey: bv32, ghost block: seq<bv8>, ghost key: seq<bv8>) returns (during: bv32, backup: bv32)
    requires PocketsFit(l) && base + l.sb1Size <= region.Length && bag.Length == LoadedSize(l)
    requires keyAt + 4 <= keyRegion.Length && region != bag && region != keyRegion && keyRegion != bag
    requires block == region[base .. base + l.sb1Size] && key == keyRegion[keyAt .. keyAt + 4]
    modifies region, keyRegion
    ensures region[..] == CopyInto(old(region[..]), base, SavedPockets(l, block, bag[..], |l.pocketCounts|))
    ensures keyRegion[..] == old(keyRegion[..])
    ensures during == lastKey && backup == LeWord32(key)
  {
    SavePockets(l, region, base, bag);
    during, backup := SwapKeyAround(keyRegion, keyAt, lastKey);
  }

  // ---------------------------------------------------------------------
  // The memory: regions, pointers, heap, RAM copies and callbacks.
  // ---------------------------------------------------------------------

  /** Calls into code outside this file, logged with the arguments that matter. */
  datatype ExternalCall =
    | BagItemsPointersSet
    | DecorationInventoriesPointersSet
    | HeapReset
    | GameStatsReKeyed(currentKey: bv32, newKey: bv32)
    | BagItemsReKeyedAll(currentKey: bv32, newKey: bv32)
    | BagItemsReKeyed(currentKey: bv32, newKey: bv32)
    | PokedexReset
    | PokedexFlagsCleared
    | ContinueGameWarpSetToDynamicWarp

  class SaveMemory {
    const layout: Layout
    /** gSaveblock2 followed by gSaveblock2_DMA, and likewise for the other two blocks. */
    const sb2Region: array<bv8>
    const sb1Region: array<bv8>
    const storageRegion: array<bv8>
    /** gHeap. */
    const heap: array<bv8>
    /** gPlayerParty, gObjectEvents and gLoadedSaveData. */
    const playerParty: array<bv8>
    const objectEvents: array<bv8>
    const loadedBag: array<bv8>

    /** gSaveBlock2Ptr, gSaveBlock1Ptr, gPokemonStoragePtr as offsets into their regions. */
    var sb2Ptr: nat
    var sb1Ptr: nat
    var storagePtr: nat
    var playerPartyCount: bv8
    var lastEncryptionKey: bv32
    var vblankCallback: nat
    var hblankCallback: nat
    var trainerHillVBlankCounter: nat
    var calls: seq<ExternalCall>

    ghost predicate Distinct()
    {
      sb2Region != sb1Region && sb2Region != storageRegion && sb2Region != heap
      && sb2Region != playerParty && sb2Region != objectEvents && sb2Region != loadedBag
      && sb1Region != storageRegion && sb1Region != heap && sb1Region != playerParty
      && sb1Region != objectEvents && sb1Region != loadedBag
      && storageRegion != heap && storageRegion != playerParty && storageRegion != objectEvents
      && storageRegion != loadedBag
      && heap != playerParty && heap != objectEvents && heap != loadedBag
      && playerParty != objectEvents && playerParty != loadedBag && objectEvents != loadedBag
    }

    ghost predicate Valid()
      reads this`sb2Ptr, this`sb1Ptr, this`storagePtr
    {
      LayoutValid(layout) && Distinct()
      && sb2Region.Length == layout.sb2Size + SAVEBLOCK_MOVE_RANGE
      && sb1Region.Length == layout.sb1Size + SAVEBLOCK_MOVE_RANGE
      && storageRegion.Length == layout.storageSize + SAVEBLOCK_MOVE_RANGE
      && heap.Length >= layout.sb2Size + layout.sb1Size + layout.storageSize
      && playerParty.Length == PartyBytes(layout)
      && objectEvents.Length == ObjectEventsBytes(layout)
      && loadedBag.Length == LoadedSize(layout)
      && PointerOk(sb2Ptr) && PointerOk(sb1Ptr) && PointerOk(storagePtr)
    }

    /** The SaveBlock2 the pointer designates. */
    function Sb2(): (r: seq<bv8>)
      reads this`sb2Ptr, this`sb1Ptr, this`storagePtr, sb2Region
      requires Valid()
      ensures |r| == layout.sb2Size
    {
      sb2Region[sb2Ptr .. sb2Ptr + layout.sb2Size]
    }

    function Sb1(): (r: seq<bv8>)
      reads this`sb2Ptr, this`sb1Ptr, this`storagePtr, sb1Region
      requires Valid()
      ensures |r| == layout.sb1Size
    {
      sb1Region[sb1Ptr .. sb1Ptr + layout.sb1Size]
    }

    function Storage(): (r: seq<bv8>)
      reads this`sb2Ptr, this`sb1Ptr, this`storagePtr, storageRegion
      requires Valid()
      ensures |r| == layout.storageSize
    {
      storageRegion[storagePtr .. storagePtr + layout.storageSize]
    }

    /** gSaveBlock2Ptr->encryptionKey, as its four bytes. */
    function EncryptionKey(): (r: seq<bv8>)
      reads this`sb2Ptr, this`sb1Ptr, this`storagePtr, sb2Region
      requires Valid()
      ensures |r| == 4
    {
      KeyOf(layout, Sb2())
    }

    constructor (layout: Layout, sb2Region: array<bv8>, sb1Region: array<bv8>, storageRegion: array<bv8>,
                 heap: array<bv8>, playerParty: array<bv8>, objectEvents: array<bv8>, loadedBag: array<bv8>)
      requires LayoutValid(layout)
      requires sb2Region.Length == layout.sb2Size + SAVEBLOCK_MOVE_RANGE
      requires sb1Region.Length == layout.sb1Size + SAVEBLOCK_MOVE_RANGE
      requires storageRegion.Length == layout.storageSize + SAVEBLOCK_MOVE_RANGE
      requires heap.Length >= layout.sb2Size + layout.sb1Size + layout.storageSize
      requires playerParty.Length == PartyBytes(layout)
      requires objectEvents.Length == ObjectEventsBytes(layout)
      requires loadedBag.Length == LoadedSize(layout)
      requires sb2Region != sb1Region && sb2Region != storageRegion && sb2Region != heap
      requires sb2Region != playerParty && sb2Region != objectEvents && sb2Region != loadedBag
      requires sb1Region != storageRegion && sb1Region != heap && sb1Region != playerParty
      requires sb1Region != objectEvents && sb1Region != loadedBag
      requires storageRegion != heap && storageRegion != playerParty && storageRegion != objectEvents
      requires storageRegion != loadedBag
      requires heap != playerParty && heap != objectEvents && heap != loadedBag
      requires playerParty != objectEvents && playerParty != loadedBag && objectEvents != loadedBag
      ensures Valid() && this.layout == layout && sb2Ptr == 0 && sb1Ptr == 0 && storagePtr == 0
      ensures this.sb2Region == sb2Region && this.sb1Region == sb1Region && this.storageRegion == storageRegion
      ensures this.heap == heap && this.playerParty == playerParty
      ensures this.objectEvents == objectEvents && this.loadedBag == loadedBag
      ensures calls == []
    {
      this.layout := layout;
      this.sb2Region, this.sb1Region, this.storageRegion := sb2Region, sb1Region, storageRegion;
      this.heap, this.playerParty, this.objectEvents, this.loadedBag := heap, playerParty, objectEvents, loadedBag;
      sb2Ptr, sb1Ptr, storagePtr := 0, 0, 0;
      playerPartyCount, lastEncryptionKey := 0, 0;
      vblankCallback, hblankCallback, trainerHillVBlankCounter := NULL, NULL, NULL;
      calls := [];
    }

    /** ClearSav2: the whole SaveBlock2 region, slack included, becomes zero. */
    method ClearSav2()
      requires Valid()
      modifies sb2Region
      ensures sb2Region[..] == Zeros(sb2Region.Length)
    {
      HalfwordsOfEven(sb2Region.Length);
      CpuFill16Zero(sb2Region, 0, sb2Region.Length);
      CopyIntoWhole(old(sb2Region[..]), Zeros(sb2Region.Length));
    }

    /** ClearSav1: the Pokedex is reset and the whole SaveBlock1 region becomes zero. */
    method ClearSav1()
      requires Valid()
      modifies this`calls, sb1Region
      ensures sb1Region[..] == Zeros(sb1Region.Length)
      ensures calls == old(calls) + [PokedexReset, PokedexFlagsCleared]
    {
      calls := calls + [PokedexReset, PokedexFlagsCleared];
      HalfwordsOfEven(sb1Region.Length);
      CpuFill16Zero(sb1Region, 0, sb1Region.Length);
      CopyIntoWhole(old(sb1Region[..]), Zeros(sb1Region.Length));
    }

    /** ClearSav1_NewGamePlus: clear SaveBlock1 but keep the Pokedex flags and the PC items. */
    method ClearSav1NewGamePlus()
      requires Valid()
      modifies sb1Region
      ensures sb1Region[..] == NewGamePlusRegion(layout, old(sb1Region[..]), sb1Ptr)
    {
      ClearRegionNewGamePlus(layout, sb1Region, sb1Ptr);
    }

    /**
     * SetSaveBlocksPointers: the three blocks move to the same 4-aligned
     * offset derived from `offset` and the random value, and the bag and
     * decoration pointers are refreshed.
     */
    method SetSaveBlocksPointers(offset: nat, rand: nat)
      requires Valid() && offset < 0x1_0000 && rand < 0x1_0000
      modifies this`sb2Ptr, this`sb1Ptr, this`storagePtr, this`calls
      ensures Valid()
      ensures sb2Ptr == BlockOffset(offset, rand) && sb1Ptr == sb2Ptr && storagePtr == sb2Ptr
      ensures calls == old(calls) + [BagItemsPointersSet, DecorationInventoriesPointersSet]
    {
      var at := BlockOffset(offset, rand);
      sb2Ptr := at;
      sb1Ptr := at;
      storagePtr := at;
      calls := calls + [BagItemsPointersSet, DecorationInventoriesPointersSet];
    }

    /**
     * ApplyNewEncryptionKeyToAllEncryptedData: game stats and bag items are
     * re-keyed by code outside this file, then money and coins here, all
     * from the key SaveBlock2 holds to the new one.
     */
    method ApplyNewEncryptionKeyToAllEncryptedData(newKey: bv32)
      requires Valid()
      modifies sb1Region, this`calls
      ensures Valid()
      ensures sb1Region[..] == CopyInto(old(sb1Region[..]), sb1Ptr,
                                        ReKeyedSb1(layout, old(Sb1()), EncryptionKey(), LeBytes32(newKey)))
      ensures calls == old(calls) + [GameStatsReKeyed(LeWord32(EncryptionKey()), newKey),
                                     BagItemsReKeyedAll(LeWord32(EncryptionKey()), newKey)]
    {
      var key := EncryptionKey();
      ghost var block := Sb1();
      calls := calls + [GameStatsReKeyed(LeWord32(key), newKey), BagItemsReKeyedAll(LeWord32(key), newKey)];
      ReKeyPurse(layout, sb1Region, sb1Ptr, key, newKey);
      assert EncryptionKey() == key;
    }

    /**
     * The block-moving half of MoveSaveBlocks_ResetHeap: with the interrupt
     * callbacks off, the three blocks are backed up to the heap, the
     * pointers move to the offset the heap copy's trainer id bytes and the
     * random value give, the copies are written back at the new places, the
     * heap is reset and the callbacks are restored.
     */
    method MoveBlocks(rand: nat)
      requires Valid() && rand < 0x1_0000
      modifies this`sb2Ptr, this`sb1Ptr, this`storagePtr, this`calls
      modifies this`vblankCallback, this`hblankCallback, this`trainerHillVBlankCounter
      modifies heap, sb2Region, sb1Region, storageRegion
      ensures Valid()
      ensures sb2Ptr == BlockOffset(TrainerIdSum(layout, old(Sb2())), rand)
      ensures sb1Ptr == sb2Ptr && storagePtr == sb2Ptr
      ensures sb2Region[..] == CopyInto(old(sb2Region[..]), sb2Ptr, old(Sb2()))
      ensures sb1Region[..] == CopyInto(old(sb1Region[..]), sb1Ptr, old(Sb1()))
      ensures storageRegion[..] == CopyInto(old(storageRegion[..]), storagePtr, old(Storage()))
      ensures heap[..] == CopyInto(old(heap[..]), 0, old(Sb2()) + old(Sb1()) + old(Storage()))
      ensures vblankCallback == old(vblankCallback) && hblankCallback == old(hblankCallback)
      ensures trainerHillVBlankCounter == NULL
      ensures calls == old(calls) + [BagItemsPointersSet, DecorationInventoriesPointersSet, HeapReset]
    {
      ghost var b2, b1, b3 := Sb2(), Sb1(), Storage();
      var vblank, hblank := vblankCallback, hblankCallback;
      vblankCallback, hblankCallback, trainerHillVBlankCounter := NULL, NULL, NULL;
      assert Sb2() == b2 && Sb1() == b1 && Storage() == b3;
      Relocate(rand);
      calls, hblankCallback, vblankCallback := calls + [HeapReset], hblank, vblank;
    }

    /**
     * MoveSaveBlocks_ResetHeap: the blocks move to the offset derived from
     * the trainer id and `rand`, then a new key `(keyHigh << 16) + keyLow`
     * re-encrypts money and coins and is stored in SaveBlock2. The three
     * random values are parameters.
     */
    method MoveSaveBlocksResetHeap(rand: nat, keyHigh: bv16, keyLow: bv16)
      requires Valid() && rand < 0x1_0000
      modifies this`sb2Ptr, this`sb1Ptr, this`storagePtr, this`calls
      modifies this`vblankCallback, this`hblankCallback, this`trainerHillVBlankCounter
      modifies heap, sb2Region, sb1Region, storageRegion
      ensures Valid()
      ensures sb2Ptr == BlockOffset(TrainerIdSum(layout, old(Sb2())), rand)
      ensures sb1Ptr == sb2Ptr && storagePtr == sb2Ptr
      ensures sb2Region[..] == CopyInto(old(sb2Region[..]), sb2Ptr,
                                        CopyInto(old(Sb2()), layout.encryptionKeyAt, LeBytes32(NewKey(keyHigh, keyLow))))
      ensures sb1Region[..] == CopyInto(old(sb1Region[..]), sb1Ptr,
                                        ReKeyedSb1(layout, old(Sb1()), old(EncryptionKey()), LeBytes32(NewKey(keyHigh, keyLow))))
      ensures storageRegion[..] == CopyInto(old(storageRegion[..]), storagePtr, old(Storage()))
      ensures vblankCallback == old(vblankCallback) && hblankCallback == old(hblankCallback)
      ensures trainerHillVBlankCounter == NULL
      ensures calls == old(calls) + [BagItemsPointersSet, DecorationInventoriesPointersSet, HeapReset,
                                     GameStatsReKeyed(LeWord32(old(EncryptionKey())), NewKey(keyHigh, keyLow)),
                                     BagItemsReKeyedAll(LeWord32(old(EncryptionKey())), NewKey(keyHigh, keyLow))]
    {
      ghost var b2, b1 := Sb2(), Sb1();
      ghost var o2, o1 := sb2Region[..], sb1Region[..];
      MoveBlocks(rand);
      var key := NewKey(keyHigh, keyLow);
      ReKeyAndStore(key, o2, b2, o1, b1);
    }

    /**
     * The last two steps of MoveSaveBlocks_ResetHeap: re-encrypt with the
     * new key, then store it in SaveBlock2. The blocks were just placed,
     * `b2` over `o2` and `b1` over `o1`, at the pointers.
     */
    method ReKeyAndStore(newKey: bv32, ghost o2: seq<bv8>, ghost b2: seq<bv8>, ghost o1: seq<bv8>, ghost b1: seq<bv8>)
      requires Valid() && |o2| == sb2Region.Length && |o1| == sb1Region.Length
      requires |b2| == layout.sb2Size && |b1| == layout.sb1Size
      requires sb2Region[..] == CopyInto(o2, sb2Ptr, b2) && sb1Region[..] == CopyInto(o1, sb1Ptr, b1)
      modifies sb1Region, sb2Region, this`calls
      ensures Valid()
      ensures sb2Region[..] == CopyInto(o2, sb2Ptr, CopyInto(b2, layout.encryptionKeyAt, LeBytes32(newKey)))
      ensures sb1Region[..] == CopyInto(o1, sb1Ptr, ReKeyedSb1(layout, b1, KeyOf(layout, b2), LeBytes32(newKey)))
      ensures calls == old(calls) + [GameStatsReKeyed(LeWord32(KeyOf(layout, b2)), newKey),
                                     BagItemsReKeyedAll(LeWord32(KeyOf(layout, b2)), newKey)]
    {
      CopyIntoSpan(o2, sb2Ptr, b2);
      CopyIntoSpan(o1, sb1Ptr, b1);
      assert Sb2() == b2 && Sb1() == b1;
      ApplyNewEncryptionKeyToAllEncryptedData(newKey);
      CopyIntoTwice(o1, sb1Ptr, b1, ReKeyedSb1(layout, b1, KeyOf(layout, b2), LeBytes32(newKey)));
      WriteU32(sb2Region, sb2Ptr + layout.encryptionKeyAt, newKey);
      CopyIntoOver(o2, sb2Ptr, b2, layout.encryptionKeyAt, LeBytes32(newKey));
    }

    /** UseContinueGameWarp: the CONTINUE_GAME_WARP bit of SaveBlock2's special warp flags. */
    function UseContinueGameWarp(): (r: bv8)
      reads this`sb2Ptr, this`sb1Ptr, this`storagePtr, sb2Region
      requires Valid()
      ensures r & !layout.continueGameWarp == 0
      ensures r == 0 <==> Sb2()[layout.warpFlagsAt] & layout.continueGameWarp == 0
    {
      Sb2()[layout.warpFlagsAt] & layout.continueGameWarp
    }

    /** SetContinueGameWarpStatus: the warp bit is set and every other byte and bit is kept. */
    method SetContinueGameWarpStatus()
      requires Valid()
      modifies sb2Region
      ensures Valid()
      ensures sb2Region[..] == old(sb2Region[..])[sb2Ptr + layout.warpFlagsAt :=
                                                  WarpSet(old(Sb2())[layout.warpFlagsAt], layout.continueGameWarp)]
      ensures UseContinueGameWarp() != 0
    {
      var at := sb2Ptr + layout.warpFlagsAt;
      assert sb2Region[at] == Sb2()[layout.warpFlagsAt];
      StoreByte(sb2Region, at, WarpSet(sb2Region[at], layout.continueGameWarp));
      assert Sb2()[layout.warpFlagsAt] == sb2Region[at];
    }

    /** ClearContinueGameWarpStatus: the warp bit is cleared and every other byte and bit is kept. */
    method ClearContinueGameWarpStatus()
      requires Valid()
      modifies sb2Region
      ensures Valid()
      ensures sb2Region[..] == old(sb2Region[..])[sb2Ptr + layout.warpFlagsAt :=
                                                  WarpCleared(old(Sb2())[layout.warpFlagsAt], layout.continueGameWarp)]
      ensures UseContinueGameWarp() == 0
    {
      var at := sb2Ptr + layout.warpFlagsAt;
      assert sb2Region[at] == Sb2()[layout.warpFlagsAt];
      StoreByte(sb2Region, at, WarpCleared(sb2Region[at], layout.continueGameWarp));
      assert Sb2()[layout.warpFlagsAt] == sb2Region[at];
    }

    /** ClearContinueGameWarpStatus2 repeats ClearContinueGameWarpStatus. */
    method ClearContinueGameWarpStatus2()
      requires Valid()
      modifies sb2Region
      ensures Valid()
      ensures sb2Region[..] == old(sb2Region[..])[sb2Ptr + layout.warpFlagsAt :=
                                                  WarpCleared(old(Sb2())[layout.warpFlagsAt], layout.continueGameWarp)]
      ensures UseContinueGameWarp() == 0
    {
      ClearContinueGameWarpStatus();
    }

    /** SetContinueGameWarpStatusToDynamicWarp: the continue-game warp becomes the dynamic warp, then the bit is set. */
    method SetContinueGameWarpStatusToDynamicWarp()
      requires Valid()
      modifies sb2Region, this`calls
      ensures Valid()
      ensures sb2Region[..] == old(sb2Region[..])[sb2Ptr + layout.warpFlagsAt :=
                                                  WarpSet(old(Sb2())[layout.warpFlagsAt], layout.continueGameWarp)]
      ensures UseContinueGameWarp() != 0
      ensures calls == old(calls) + [ContinueGameWarpSetToDynamicWarp]
    {
      calls := calls + [ContinueGameWarpSetToDynamicWarp];
      SetContinueGameWarpStatus();
    }

    /** SavePlayerParty: the party count and the six party slots are written into SaveBlock1. */
    method SavePlayerParty()
      requires Valid()
      modifies sb1Region
      ensures Valid()
      ensures sb1Region[..] == CopyInto(old(sb1Region[..]), sb1Ptr,
                                        SavedParty(layout, old(Sb1()), playerPartyCount, playerParty[..]))
    {
      StoreParty(layout, sb1Region, sb1Ptr, playerPartyCount, playerParty);
    }

    /** LoadPlayerParty: the party count and the six party slots are read from SaveBlock1. */
    method LoadPlayerParty()
      requires Valid()
      modifies this`playerPartyCount, playerParty
      ensures playerPartyCount == Sb1()[layout.partyCountAt]
      ensures playerParty[..] == Sb1()[layout.partyAt .. layout.partyAt + PartyBytes(layout)]
    {
      playerPartyCount := sb1Region[sb1Ptr + layout.partyCountAt];
      CopyBytes(sb1Region, sb1Ptr + layout.partyAt, playerParty, 0, playerParty.Length);
      CopyIntoWhole(old(playerParty[..]), sb1Region[sb1Ptr + layout.partyAt .. sb1Ptr + layout.partyAt + playerParty.Length]);
      SliceOfSlice(sb1Region[..], sb1Ptr, layout.sb1Size, layout.partyAt, PartyBytes(layout));
    }

    /** SaveObjectEvents: the object events are written into SaveBlock1. */
    method SaveObjectEvents()
      requires Valid()
      modifies sb1Region
      ensures Valid()
      ensures sb1Region[..] == CopyInto(old(sb1Region[..]), sb1Ptr, SavedObjects(layout, old(Sb1()), objectEvents[..]))
    {
      StoreObjects(layout, sb1Region, sb1Ptr, objectEvents);
    }

    /** LoadObjectEvents: the object events are read from SaveBlock1. */
    method LoadObjectEvents()
      requires Valid()
      modifies objectEvents
      ensures objectEvents[..] == Sb1()[layout.objectEventsAt .. layout.objectEventsAt + ObjectEventsBytes(layout)]
    {
      CopyBytes(sb1Region, sb1Ptr + layout.objectEventsAt, objectEvents, 0, objectEvents.Length);
      CopyIntoWhole(old(objectEvents[..]),
                    sb1Region[sb1Ptr + layout.objectEventsAt .. sb1Ptr + layout.objectEventsAt + objectEvents.Length]);
      SliceOfSlice(sb1Region[..], sb1Ptr, layout.sb1Size, layout.objectEventsAt, ObjectEventsBytes(layout));
    }

    /** SaveSerializedGame: the party, then the object events, written into SaveBlock1. */
    method SaveSerializedGame()
      requires Valid()
      modifies sb1Region
      ensures Valid()
      ensures sb1Region[..] == CopyInto(old(sb1Region[..]), sb1Ptr,
                                        SavedObjects(layout, SavedParty(layout, old(Sb1()), playerPartyCount, playerParty[..]),
                                                     objectEvents[..]))
    {
      ghost var o1 := sb1Region[..];
      ghost var party := SavedParty(layout, Sb1(), playerPartyCount, playerParty[..]);
      SavePlayerParty();
      CopyIntoSpan(o1, sb1Ptr, party);
      assert Sb1() == party;
      SaveObjectEvents();
      CopyIntoTwice(o1, sb1Ptr, party, SavedObjects(layout, party, objectEvents[..]));
    }

    /** LoadSerializedGame: the party, then the object events, read from SaveBlock1. */
    method LoadSerializedGame()
      requires Valid()
      modifies this`playerPartyCount, playerParty, objectEvents
      ensures playerPartyCount == Sb1()[layout.partyCountAt]
      ensures playerParty[..] == Sb1()[layout.partyAt .. layout.partyAt + PartyBytes(layout)]
      ensures objectEvents[..] == Sb1()[layout.objectEventsAt .. layout.objectEventsAt + ObjectEventsBytes(layout)]
    {
      LoadPlayerParty();
      LoadObjectEvents();
    }

    /**
     * LoadPlayerBag as intended: every pocket of SaveBlock1 copied to its
     * own place in the loaded data, and the current key remembered.
     */
    method LoadPlayerBag()
      requires Valid()
      modifies loadedBag, this`lastEncryptionKey
      ensures loadedBag[..] == LoadedFrom(layout, Sb1(), old(loadedBag[..]), 0, |layout.pocketCounts|)
      ensures lastEncryptionKey == LeWord32(EncryptionKey())
    {
      LoadPockets(layout, sb1Region, sb1Ptr, loadedBag, 0, |layout.pocketCounts|);
      lastEncryptionKey := LeWord32(EncryptionKey());
    }

    /**
     * LoadPlayerBag as written: the medicine and collectible loops store to
     * the items array, so all three pockets land at the start of the loaded
     * data, one over the other.
     */
    method LoadPlayerBagAsWritten()
      requires Valid()
      modifies loadedBag, this`lastEncryptionKey
      ensures loadedBag[..] == LoadedPocketsAsWritten(layout, Sb1(), old(loadedBag[..]))
      ensures lastEncryptionKey == LeWord32(EncryptionKey())
    {
      LoadBagAsWritten(layout, sb1Region, sb1Ptr, loadedBag);
      lastEncryptionKey := LeWord32(EncryptionKey());
    }

    /**
     * SavePlayerBag: every pocket of the loaded data is written back into
     * SaveBlock1; the bag items are then re-keyed from the key remembered at
     * load time to the current key, which SaveBlock2 holds again at the end.
     */
    method SavePlayerBag()
      requires Valid()
      modifies sb1Region, sb2Region, this`calls
      ensures Valid()
      ensures sb1Region[..] == CopyInto(old(sb1Region[..]), sb1Ptr,
                                        SavedPockets(layout, old(Sb1()), loadedBag[..], |layout.pocketCounts|))
      ensures sb2Region[..] == old(sb2Region[..])
      ensures calls == old(calls) + [BagItemsReKeyed(lastEncryptionKey, LeWord32(old(EncryptionKey())))]
    {
      var keyAt := sb2Ptr + layout.encryptionKeyAt;
      SliceOfSlice(sb2Region[..], sb2Ptr, layout.sb2Size, layout.encryptionKeyAt, 4);
      var during, backup := SaveBag(layout, sb1Region, sb1Ptr, sb2Region, keyAt, loadedBag, lastEncryptionKey,
                                    Sb1(), EncryptionKey());
      calls := calls + [BagItemsReKeyed(during, backup)];
    }

    /** The key SaveBlock2 holds right after `v` is stored over it. */
    lemma KeyAfterStore(o2: seq<bv8>, v: bv32)
      requires Valid() && |o2| == sb2Region.Length
      requires sb2Region[..] == CopyInto(o2, sb2Ptr + layout.encryptionKeyAt, LeBytes32(v))
      ensures LeWord32(EncryptionKey()) == v
    {
      CopyIntoSpan(o2, sb2Ptr + layout.encryptionKeyAt, LeBytes32(v));
      SliceOfSlice(sb2Region[..], sb2Ptr, layout.sb2Size, layout.encryptionKeyAt, 4);
      LeWord32OfBytes(v);
    }

    /**
     * The part of MoveBlocks between switching the callbacks off and
     * resetting the heap: backup, new pointers, copies written back.
     */
    method Relocate(rand: nat)
      requires Valid() && rand < 0x1_0000
      modifies this`sb2Ptr, this`sb1Ptr, this`storagePtr, this`calls
      modifies heap, sb2Region, sb1Region, storageRegion
      ensures Valid()
      ensures sb2Ptr == BlockOffset(TrainerIdSum(layout, old(Sb2())), rand)
      ensures sb1Ptr == sb2Ptr && storagePtr == sb2Ptr
      ensures sb2Region[..] == CopyInto(old(sb2Region[..]), sb2Ptr, old(Sb2()))
      ensures sb1Region[..] == CopyInto(old(sb1Region[..]), sb1Ptr, old(Sb1()))
      ensures storageRegion[..] == CopyInto(old(storageRegion[..]), storagePtr, old(Storage()))
      ensures heap[..] == CopyInto(old(heap[..]), 0, old(Sb2()) + old(Sb1()) + old(Storage()))
      ensures calls == old(calls) + [BagItemsPointersSet, DecorationInventoriesPointersSet]
    {
      ghost var b2, b1, b3 := Sb2(), Sb1(), Storage();
      var offset, at := MoveRegions(layout, sb2Region, sb2Ptr, sb1Region, sb1Ptr, storageRegion, storagePtr, heap, rand,
                                    b2, b1, b3);
      SetSaveBlocksPointers(offset, rand);
    }
  }
}
