/**
 * The Pokémon data the battle partner controller exchanges with the battle
 * engine: a Pokémon abstracted as a map from data field to value, the
 * request ids of the get/set data commands, the little-endian byte widths
 * the serialiser uses for each request, and the party bitmask that selects
 * which party slots a get/set command addresses.
 */
module PartnerMon {
  import opened Common

  const PARTY_SIZE := 6

  /** The `MON_DATA_*` fields the controller reads or writes. */
  datatype MonField =
    | Species | HeldItem | Move1 | Move2 | Move3 | Move4 | Pp1 | Pp2 | Pp3 | Pp4 | PpBonuses
    | Friendship | Exp | HpIv | AtkIv | DefIv | SpeedIv | SpAtkIv | SpDefIv | Personality | Status
    | Level | Hp | MaxHp | Atk | Def | Speed | SpAtk | SpDef | AbilityNum | OtId | Checksum
    | HpEv | AtkEv | DefEv | SpeedEv | SpAtkEv | SpDefEv | Pokerus | MetLocation | MetLevel | MetGame
    | Pokeball | Cool | Beauty | Cute | Smart | Tough | Sheen
    | CoolRibbon | BeautyRibbon | CuteRibbon | SmartRibbon | ToughRibbon

  /** A party Pokémon: the value `GetMonData` returns for each field. */
  type Mon = map<MonField, int>

  /** `GetMonData(mon, f)`; a field the map does not hold reads as 0. */
  function FieldOf(mon: Mon, f: MonField): int
  {
    if f in mon then mon[f] else 0
  }

  /** The `REQUEST_*_BATTLE` ids, one per case of the serialiser; `ReqUnlisted` is any id no case names. */
  datatype Request =
    | ReqAllBattle | ReqSpecies | ReqHeldItem | ReqMovesPp | ReqMove1 | ReqMove2 | ReqMove3 | ReqMove4
    | ReqPpData | ReqPpMove1 | ReqPpMove2 | ReqPpMove3 | ReqPpMove4 | ReqOtId | ReqExp
    | ReqHpEv | ReqAtkEv | ReqDefEv | ReqSpeedEv | ReqSpAtkEv | ReqSpDefEv | ReqFriendship | ReqPokerus
    | ReqMetLocation | ReqMetLevel | ReqMetGame | ReqPokeball | ReqAllIvs
    | ReqHpIv | ReqAtkIv | ReqDefIv | ReqSpeedIv | ReqSpAtkIv | ReqSpDefIv
    | ReqPersonality | ReqChecksum | ReqStatus | ReqLevel | ReqHp | ReqMaxHp
    | ReqAtk | ReqDef | ReqSpeed | ReqSpAtk | ReqSpDef
    | ReqCool | ReqBeauty | ReqCute | ReqSmart | ReqTough | ReqSheen
    | ReqCoolRibbon | ReqBeautyRibbon | ReqCuteRibbon | ReqSmartRibbon | ReqToughRibbon
    | ReqUnlisted

  /** The two requests answered with a whole C struct (`struct BattlePokemon`, `struct MovePpInfo`). */
  predicate IsStructRequest(req: Request)
  {
    req.ReqAllBattle? || req.ReqMovesPp?
  }

  /**
   * The byte image of the struct a struct request copies out of a Pokémon.
   * The struct layouts belong to the battle headers, so the image is a parameter.
   */
  type StructImage = (Request, Mon) -> seq<bv8>

  // ---------------------------------------------------------------------
  // Little-endian bytes.
  // ---------------------------------------------------------------------

  function Pow256(k: nat): (r: nat)
    ensures r >= 1
  {
    if k == 0 then 1 else 256 * Pow256(k - 1)
  }

  /** The low `n` bytes of `v`, least significant first. */
  function LeBytes(v: int, n: nat): (r: seq<bv8>)
    ensures |r| == n
    decreases n
  {
    if n == 0 then [] else [(v % 256) as bv8] + LeBytes(v / 256, n - 1)
  }

  /** The number whose little-endian bytes `s` are. */
  function LeValue(s: seq<bv8>): (r: nat)
    ensures r < Pow256(|s|)
  {
    if s == [] then 0 else s[0] as nat + 256 * LeValue(s[1..])
  }

  /** Byte `k` of `v`: the bits a C mask `0xFF << 8k` and a shift by `8k` pick out. */
  function ByteOf(v: int, k: nat): bv8
  {
    ((v / Pow256(k)) % 256) as bv8
  }

  /** A positive number times a positive number is at least the first. */
  lemma {:induction false} MulAtLeast(d: int, e: int)
    requires d > 0 && e >= 1
    ensures d * e >= d
    decreases e
  {
    if e > 1 {
      MulAtLeast(d, e - 1);
      assert d * e == d * (e - 1) + d;
    }
  }

  /** Euclidean division and remainder are the unique quotient and remainder. */
  lemma DivModUnique(v: int, d: int, q: int, m: int)
    requires d > 0 && v == d * q + m && 0 <= m < d
    ensures v / d == q && v % d == m
  {
    var q', m' := v / d, v % d;
    var e := q - q';
    assert d * q - d * q' == d * e;
    assert d * e == m' - m;
    if e >= 1 {
      MulAtLeast(d, e);
    }
  }

  /** Dividing by 256 and then by `p` is dividing by `256 * p`; the remainders nest the same way. */
  lemma DivModBy256Then(v: int, p: nat)
    requires p >= 1
    ensures v / (256 * p) == (v / 256) / p
    ensures v % (256 * p) == v % 256 + 256 * ((v / 256) % p)
  {
    var q, r := v / 256, v % 256;
    var a, b := q / p, q % p;
    assert v == 256 * q + r;
    assert q == p * a + b;
    assert v == (256 * p) * a + (256 * b + r) by {
      assert 256 * q == 256 * (p * a) + 256 * b;
      assert 256 * (p * a) == (256 * p) * a;
    }
    assert 0 <= 256 * b + r < 256 * p;
    DivModUnique(v, 256 * p, a, 256 * b + r);
  }

  /** Decoding the `n` bytes of `v` gives back `v` modulo 256^n: the bytes lose only what lies above them. */
  lemma {:induction false} LeValueOfLeBytes(v: int, n: nat)
    ensures LeValue(LeBytes(v, n)) == v % Pow256(n)
    decreases n
  {
    if n > 0 {
      var p := Pow256(n - 1);
      var s := LeBytes(v, n);
      LeValueOfLeBytes(v / 256, n - 1);
      assert s[1..] == LeBytes(v / 256, n - 1);
      ByteOfSmall(v % 256);
      assert s[0] as nat == v % 256;
      assert LeValue(s) == (v % 256) + 256 * ((v / 256) % p);
      DivModBy256Then(v, p);
      assert Pow256(n) == 256 * p;
    }
  }

  /** Encoding a decoded byte string gives back the bytes. */
  lemma {:induction false} LeBytesOfLeValue(s: seq<bv8>)
    ensures LeBytes(LeValue(s), |s|) == s
  {
    if s != [] {
      var rest := LeValue(s[1..]);
      var v := s[0] as nat + 256 * rest;
      DivModUnique(v, 256, rest, s[0] as nat);
      SmallOfByte(s[0]);
      LeBytesOfLeValue(s[1..]);
      assert LeBytes(v, |s|) == [s[0]] + s[1..];
    }
  }

  /** Byte `k` of the encoding is byte `k` of the value, for every `k` below the width. */
  lemma {:induction false} LeBytesAre(v: int, n: nat, k: nat)
    requires k < n
    ensures LeBytes(v, n)[k] == ByteOf(v, k)
    decreases k
  {
    if k > 0 {
      var p := Pow256(k - 1);
      LeBytesAre(v / 256, n - 1, k - 1);
      assert LeBytes(v, n)[k] == LeBytes(v / 256, n - 1)[k - 1];
      DivModBy256Then(v, p);
      assert Pow256(k) == 256 * p;
      assert v / Pow256(k) == (v / 256) / p;
    } else {
      assert Pow256(0) == 1;
    }
  }

  // ---------------------------------------------------------------------
  // The serialiser's layout (CopyPlayerPartnerMonData).
  // ---------------------------------------------------------------------

  /** A field written as `width` little-endian bytes. */
  datatype Piece = Piece(field: MonField, width: nat)

  /**
   * The fields a non-struct request writes, in order, with their widths:
   * 16-bit values take 2 bytes, OT id and EXP 3, personality and status 4,
   * the rest 1. A struct request or an unlisted id writes no piece.
   */
  function Pieces(req: Request): seq<Piece>
  {
    match req
    case ReqAllBattle => []
    case ReqSpecies => [Piece(Species, 2)]
    case ReqHeldItem => [Piece(HeldItem, 2)]
    case ReqMovesPp => []
    case ReqMove1 => [Piece(Move1, 2)]
    case ReqMove2 => [Piece(Move2, 2)]
    case ReqMove3 => [Piece(Move3, 2)]
    case ReqMove4 => [Piece(Move4, 2)]
    case ReqPpData => [Piece(Pp1, 1), Piece(Pp2, 1), Piece(Pp3, 1), Piece(Pp4, 1), Piece(PpBonuses, 1)]
    case ReqPpMove1 => [Piece(Pp1, 1)]
    case ReqPpMove2 => [Piece(Pp2, 1)]
    case ReqPpMove3 => [Piece(Pp3, 1)]
    case ReqPpMove4 => [Piece(Pp4, 1)]
    case ReqOtId => [Piece(OtId, 3)]
    case ReqExp => [Piece(Exp, 3)]
    case ReqHpEv => [Piece(HpEv, 1)]
    case ReqAtkEv => [Piece(AtkEv, 1)]
    case ReqDefEv => [Piece(DefEv, 1)]
    case ReqSpeedEv => [Piece(SpeedEv, 1)]
    case ReqSpAtkEv => [Piece(SpAtkEv, 1)]
    case ReqSpDefEv => [Piece(SpDefEv, 1)]
    case ReqFriendship => [Piece(Friendship, 1)]
    case ReqPokerus => [Piece(Pokerus, 1)]
    case ReqMetLocation => [Piece(MetLocation, 1)]
    case ReqMetLevel => [Piece(MetLevel, 1)]
    case ReqMetGame => [Piece(MetGame, 1)]
    case ReqPokeball => [Piece(Pokeball, 1)]
    case ReqAllIvs =>
      [Piece(HpIv, 1), Piece(AtkIv, 1), Piece(DefIv, 1), Piece(SpeedIv, 1), Piece(SpAtkIv, 1), Piece(SpDefIv, 1)]
    case ReqHpIv => [Piece(HpIv, 1)]
    case ReqAtkIv => [Piece(AtkIv, 1)]
    case ReqDefIv => [Piece(DefIv, 1)]
    case ReqSpeedIv => [Piece(SpeedIv, 1)]
    case ReqSpAtkIv => [Piece(SpAtkIv, 1)]
    case ReqSpDefIv => [Piece(SpDefIv, 1)]
    case ReqPersonality => [Piece(Personality, 4)]
    case ReqChecksum => [Piece(Checksum, 2)]
    case ReqStatus => [Piece(Status, 4)]
    case ReqLevel => [Piece(Level, 1)]
    case ReqHp => [Piece(Hp, 2)]
    case ReqMaxHp => [Piece(MaxHp, 2)]
    case ReqAtk => [Piece(Atk, 2)]
    case ReqDef => [Piece(Def, 2)]
    case ReqSpeed => [Piece(Speed, 2)]
    case ReqSpAtk => [Piece(SpAtk, 2)]
    case ReqSpDef => [Piece(SpDef, 2)]
    case ReqCool => [Piece(Cool, 1)]
    case ReqBeauty => [Piece(Beauty, 1)]
    case ReqCute => [Piece(Cute, 1)]
    case ReqSmart => [Piece(Smart, 1)]
    case ReqTough => [Piece(Tough, 1)]
    case ReqSheen => [Piece(Sheen, 1)]
    case ReqCoolRibbon => [Piece(CoolRibbon, 1)]
    case ReqBeautyRibbon => [Piece(BeautyRibbon, 1)]
    case ReqCuteRibbon => [Piece(CuteRibbon, 1)]
    case ReqSmartRibbon => [Piece(SmartRibbon, 1)]
    case ReqToughRibbon => [Piece(ToughRibbon, 1)]
    case ReqUnlisted => []
  }

  /** The total width of a list of pieces. */
  function Width(ps: seq<Piece>): nat
  {
    if ps == [] then 0 else Width(ps[..|ps| - 1]) + ps[|ps| - 1].width
  }

  /** The bytes of the pieces of `mon`, each little-endian, one after the other. */
  function PiecesBytes(mon: Mon, ps: seq<Piece>): (r: seq<bv8>)
    ensures |r| == Width(ps)
  {
    if ps == [] then []
    else PiecesBytes(mon, ps[..|ps| - 1]) + LeBytes(FieldOf(mon, ps[|ps| - 1].field), ps[|ps| - 1].width)
  }

  /** The bytes `CopyPlayerPartnerMonData` writes for request `req` about `mon`. */
  function Encoding(req: Request, mon: Mon, image: StructImage): seq<bv8>
  {
    if IsStructRequest(req) then image(req, mon) else PiecesBytes(mon, Pieces(req))
  }

  /** Requests whose one field goes out as 2 bytes: the 16-bit fields. */
  predicate IsHalfwordRequest(req: Request)
  {
    match req
    case ReqSpecies | ReqHeldItem | ReqMove1 | ReqMove2 | ReqMove3 | ReqMove4 | ReqChecksum
       | ReqHp | ReqMaxHp | ReqAtk | ReqDef | ReqSpeed | ReqSpAtk | ReqSpDef => true
    case _ => false
  }

  // The lemmas about the table are proved request by request.

  /** The one-field answers take 2 bytes exactly for the 16-bit fields. */
  lemma PieceWidths(req: Request)
    ensures |Pieces(req)| == 1 ==> (Pieces(req)[0].width == 2 <==> IsHalfwordRequest(req))
  {
    match req
    case ReqAllBattle => case ReqSpecies => case ReqHeldItem => case ReqMovesPp => case ReqMove1 =>
    case ReqMove2 => case ReqMove3 => case ReqMove4 => case ReqPpData => case ReqPpMove1 =>
    case ReqPpMove2 => case ReqPpMove3 => case ReqPpMove4 => case ReqOtId => case ReqExp => case ReqHpEv =>
    case ReqAtkEv => case ReqDefEv => case ReqSpeedEv => case ReqSpAtkEv => case ReqSpDefEv =>
    case ReqFriendship => case ReqPokerus => case ReqMetLocation => case ReqMetLevel => case ReqMetGame =>
    case ReqPokeball => case ReqAllIvs => case ReqHpIv => case ReqAtkIv => case ReqDefIv =>
    case ReqSpeedIv => case ReqSpAtkIv => case ReqSpDefIv => case ReqPersonality => case ReqChecksum =>
    case ReqStatus => case ReqLevel => case ReqHp => case ReqMaxHp => case ReqAtk => case ReqDef =>
    case ReqSpeed => case ReqSpAtk => case ReqSpDef => case ReqCool => case ReqBeauty => case ReqCute =>
    case ReqSmart => case ReqTough => case ReqSheen => case ReqCoolRibbon => case ReqBeautyRibbon =>
    case ReqCuteRibbon => case ReqSmartRibbon => case ReqToughRibbon => case ReqUnlisted =>
  }

  /** Every one-field answer takes from 1 to 4 bytes. */
  lemma PieceWidthRange(req: Request)
    ensures |Pieces(req)| == 1 ==> 1 <= Pieces(req)[0].width <= 4
  {
    match req
    case ReqAllBattle => case ReqSpecies => case ReqHeldItem => case ReqMovesPp => case ReqMove1 =>
    case ReqMove2 => case ReqMove3 => case ReqMove4 => case ReqPpData => case ReqPpMove1 =>
    case ReqPpMove2 => case ReqPpMove3 => case ReqPpMove4 => case ReqOtId => case ReqExp => case ReqHpEv =>
    case ReqAtkEv => case ReqDefEv => case ReqSpeedEv => case ReqSpAtkEv => case ReqSpDefEv =>
    case ReqFriendship => case ReqPokerus => case ReqMetLocation => case ReqMetLevel => case ReqMetGame =>
    case ReqPokeball => case ReqAllIvs => case ReqHpIv => case ReqAtkIv => case ReqDefIv =>
    case ReqSpeedIv => case ReqSpAtkIv => case ReqSpDefIv => case ReqPersonality => case ReqChecksum =>
    case ReqStatus => case ReqLevel => case ReqHp => case ReqMaxHp => case ReqAtk => case ReqDef =>
    case ReqSpeed => case ReqSpAtk => case ReqSpDef => case ReqCool => case ReqBeauty => case ReqCute =>
    case ReqSmart => case ReqTough => case ReqSheen => case ReqCoolRibbon => case ReqBeautyRibbon =>
    case ReqCuteRibbon => case ReqSmartRibbon => case ReqToughRibbon => case ReqUnlisted =>
  }

  /** The wide one-field answers: 3 bytes exactly for OT id and EXP, 4 exactly for personality and status. */
  lemma WidePieceWidths(req: Request)
    ensures |Pieces(req)| == 1 ==> (Pieces(req)[0].width == 3 <==> req.ReqOtId? || req.ReqExp?)
    ensures |Pieces(req)| == 1 ==> (Pieces(req)[0].width == 4 <==> req.ReqPersonality? || req.ReqStatus?)
  {
    match req
    case ReqAllBattle => case ReqSpecies => case ReqHeldItem => case ReqMovesPp => case ReqMove1 =>
    case ReqMove2 => case ReqMove3 => case ReqMove4 => case ReqPpData => case ReqPpMove1 =>
    case ReqPpMove2 => case ReqPpMove3 => case ReqPpMove4 => case ReqOtId => case ReqExp => case ReqHpEv =>
    case ReqAtkEv => case ReqDefEv => case ReqSpeedEv => case ReqSpAtkEv => case ReqSpDefEv =>
    case ReqFriendship => case ReqPokerus => case ReqMetLocation => case ReqMetLevel => case ReqMetGame =>
    case ReqPokeball => case ReqAllIvs => case ReqHpIv => case ReqAtkIv => case ReqDefIv =>
    case ReqSpeedIv => case ReqSpAtkIv => case ReqSpDefIv => case ReqPersonality => case ReqChecksum =>
    case ReqStatus => case ReqLevel => case ReqHp => case ReqMaxHp => case ReqAtk => case ReqDef =>
    case ReqSpeed => case ReqSpAtk => case ReqSpDef => case ReqCool => case ReqBeauty => case ReqCute =>
    case ReqSmart => case ReqTough => case ReqSheen => case ReqCoolRibbon => case ReqBeautyRibbon =>
    case ReqCuteRibbon => case ReqSmartRibbon => case ReqToughRibbon => case ReqUnlisted =>
  }

  /** The struct requests, the PP data, all IVs and unlisted ids are the requests that are not one field. */
  lemma PieceCount(req: Request)
    ensures |Pieces(req)| != 1 <==> req.ReqAllBattle? || req.ReqMovesPp? || req.ReqUnlisted? || req.ReqPpData? || req.ReqAllIvs?
  {
    match req
    case ReqAllBattle => case ReqSpecies => case ReqHeldItem => case ReqMovesPp => case ReqMove1 =>
    case ReqMove2 => case ReqMove3 => case ReqMove4 => case ReqPpData => case ReqPpMove1 =>
    case ReqPpMove2 => case ReqPpMove3 => case ReqPpMove4 => case ReqOtId => case ReqExp => case ReqHpEv =>
    case ReqAtkEv => case ReqDefEv => case ReqSpeedEv => case ReqSpAtkEv => case ReqSpDefEv =>
    case ReqFriendship => case ReqPokerus => case ReqMetLocation => case ReqMetLevel => case ReqMetGame =>
    case ReqPokeball => case ReqAllIvs => case ReqHpIv => case ReqAtkIv => case ReqDefIv =>
    case ReqSpeedIv => case ReqSpAtkIv => case ReqSpDefIv => case ReqPersonality => case ReqChecksum =>
    case ReqStatus => case ReqLevel => case ReqHp => case ReqMaxHp => case ReqAtk => case ReqDef =>
    case ReqSpeed => case ReqSpAtk => case ReqSpDef => case ReqCool => case ReqBeauty => case ReqCute =>
    case ReqSmart => case ReqTough => case ReqSheen => case ReqCoolRibbon => case ReqBeautyRibbon =>
    case ReqCuteRibbon => case ReqSmartRibbon => case ReqToughRibbon => case ReqUnlisted =>
  }

  /** For pieces of one byte each, byte k of the bytes is the low byte of field k. */
  lemma {:induction false} OneBytePieces(mon: Mon, ps: seq<Piece>)
    requires forall i | 0 <= i < |ps| :: ps[i].width == 1
    ensures |PiecesBytes(mon, ps)| == |ps|
    ensures forall k | 0 <= k < |ps| :: PiecesBytes(mon, ps)[k] == ByteOf(FieldOf(mon, ps[k].field), 0)
    decreases |ps|
  {
    if ps != [] {
      var init := ps[..|ps| - 1];
      var last := ps[|ps| - 1];
      OneBytePieces(mon, init);
      LeBytesAre(FieldOf(mon, last.field), 1, 0);
      assert PiecesBytes(mon, ps) == PiecesBytes(mon, init) + LeBytes(FieldOf(mon, last.field), 1);
    }
  }

  /**
   * The PP data answer is the four PP values and the PP bonuses, and the
   * all-IVs answer the six IVs, one low byte each, in that order.
   */
  lemma ByteListEncoding(req: Request, mon: Mon, image: StructImage)
    requires req == ReqPpData || req == ReqAllIvs
    ensures var enc := Encoding(req, mon, image);
            && |enc| == (if req == ReqPpData then 5 else 6)
            && forall k | 0 <= k < |enc| :: enc[k] == ByteOf(FieldOf(mon, Pieces(req)[k].field), 0)
  {
    OneBytePieces(mon, Pieces(req));
  }

  /**
   * A one-field request is the field's value in little-endian order: byte k of
   * the answer is byte k of the value, and decoding the answer gives the value
   * modulo 256 to the width.
   */
  lemma SingleFieldEncoding(req: Request, mon: Mon, image: StructImage)
    requires |Pieces(req)| == 1
    ensures var p := Pieces(req)[0];
            var enc := Encoding(req, mon, image);
            && |enc| == p.width
            && (forall k | 0 <= k < p.width :: enc[k] == ByteOf(FieldOf(mon, p.field), k))
            && LeValue(enc) == FieldOf(mon, p.field) % Pow256(p.width)
  {
    var ps := Pieces(req);
    var p := ps[0];
    assert ps[..0] == [];
    var enc := Encoding(req, mon, image);
    assert enc == LeBytes(FieldOf(mon, p.field), p.width);
    forall k | 0 <= k < p.width
      ensures enc[k] == ByteOf(FieldOf(mon, p.field), k)
    {
      LeBytesAre(FieldOf(mon, p.field), p.width, k);
    }
    LeValueOfLeBytes(FieldOf(mon, p.field), p.width);
  }

  /** Writes the `n` low bytes of `v` at `at`, least significant first. */
  method WriteLe(dst: array<bv8>, at: nat, v: int, n: nat)
    requires at + n <= dst.Length
    modifies dst
    ensures dst[..] == CopyInto(old(dst[..]), at, LeBytes(v, n))
  {
    var x := v;
    var k := 0;
    while k < n
      invariant 0 <= k <= n
      invariant dst[..] == CopyInto(old(dst[..]), at, LeBytes(v, n)[..k])
      invariant LeBytes(v, n)[k..] == LeBytes(x, n - k)
    {
      assert LeBytes(x, n - k)[0] == (x % 256) as bv8;
      assert LeBytes(v, n)[k] == (x % 256) as bv8;
      assert LeBytes(v, n)[k + 1..] == LeBytes(x, n - k)[1..];
      ghost var before := dst[..];
      dst[at + k] := (x % 256) as bv8;
      CopyIntoAdjacent(old(dst[..]), at, LeBytes(v, n)[..k], [(x % 256) as bv8]);
      assert LeBytes(v, n)[..k] + [(x % 256) as bv8] == LeBytes(v, n)[..k + 1];
      assert dst[..] == CopyInto(before, at + k, [(x % 256) as bv8]) by {
        forall j | 0 <= j < dst.Length
          ensures dst[..][j] == CopyInto(before, at + k, [(x % 256) as bv8])[j]
        {
          CopyIntoAt(before, at + k, [(x % 256) as bv8], j);
        }
      }
      x := x / 256;
      k := k + 1;
    }
    assert LeBytes(v, n)[..n] == LeBytes(v, n);
  }

  /** Copies the bytes of `src` to `dst` at `at`, one byte at a time. */
  method CopyBytesTo(src: seq<bv8>, dst: array<bv8>, at: nat)
    requires at + |src| <= dst.Length
    modifies dst
    ensures dst[..] == CopyInto(old(dst[..]), at, src)
  {
    var i := 0;
    while i < |src|
      invariant 0 <= i <= |src|
      invariant dst[..] == CopyInto(old(dst[..]), at, src[..i])
    {
      ghost var before := dst[..];
      dst[at + i] := src[i];
      CopyIntoAdjacent(old(dst[..]), at, src[..i], [src[i]]);
      assert src[..i] + [src[i]] == src[..i + 1];
      assert dst[..] == CopyInto(before, at + i, [src[i]]) by {
        forall j | 0 <= j < dst.Length
          ensures dst[..][j] == CopyInto(before, at + i, [src[i]])[j]
        {
          CopyIntoAt(before, at + i, [src[i]], j);
        }
      }
      i := i + 1;
    }
    assert src[..i] == src;
  }

  /** Writes the pieces of `mon` at `at`, each little-endian, and returns how many bytes that took. */
  method WritePieces(mon: Mon, ps: seq<Piece>, dst: array<bv8>, at: nat) returns (size: nat)
    requires at + Width(ps) <= dst.Length
    modifies dst
    ensures size == Width(ps)
    ensures dst[..] == CopyInto(old(dst[..]), at, PiecesBytes(mon, ps))
  {
    ghost var orig := dst[..];
    size := 0;
    var i := 0;
    assert ps[..0] == [];
    while i < |ps|
      invariant 0 <= i <= |ps|
      invariant size == Width(ps[..i]) <= Width(ps)
      invariant dst[..] == CopyInto(orig, at, PiecesBytes(mon, ps[..i]))
    {
      size := WritePiece(mon, ps, i, dst, at, size, orig);
      i := i + 1;
    }
    assert ps[..i] == ps;
  }

  /** One step of WritePieces: piece `i` written after the bytes of the pieces before it. */
  method WritePiece(mon: Mon, ps: seq<Piece>, i: nat, dst: array<bv8>, at: nat, size: nat, ghost orig: seq<bv8>)
    returns (size': nat)
    requires i < |ps| && at + Width(ps) <= dst.Length && |orig| == dst.Length
    requires size == Width(ps[..i]) <= Width(ps)
    requires dst[..] == CopyInto(orig, at, PiecesBytes(mon, ps[..i]))
    modifies dst
    ensures size' == Width(ps[..i + 1]) <= Width(ps)
    ensures dst[..] == CopyInto(orig, at, PiecesBytes(mon, ps[..i + 1]))
  {
    PiecesSnoc(mon, ps, i);
    ghost var done := PiecesBytes(mon, ps[..i]);
    var v := FieldOf(mon, ps[i].field);
    ghost var bytes := LeBytes(v, ps[i].width);
    WriteLe(dst, at + size, v, ps[i].width);
    CopyIntoAdjacent(orig, at, done, bytes);
    size' := size + ps[i].width;
  }

  /**
   * CopyPlayerPartnerMonData: writes the answer to request `req` about `mon`
   * at `at` and returns its size, the number of bytes written.
   */
  method CopyMonData(req: Request, mon: Mon, image: StructImage, dst: array<bv8>, at: nat) returns (size: nat)
    requires at + |Encoding(req, mon, image)| <= dst.Length
    modifies dst
    ensures size == |Encoding(req, mon, image)|
    ensures dst[..] == CopyInto(old(dst[..]), at, Encoding(req, mon, image))
  {
    if IsStructRequest(req) {
      CopyBytesTo(image(req, mon), dst, at);
      size := |image(req, mon)|;
    } else {
      size := WritePieces(mon, Pieces(req), dst, at);
    }
  }

  /** One more piece adds its bytes at the end, and its width to the total. */
  lemma PiecesSnoc(mon: Mon, ps: seq<Piece>, i: nat)
    requires i < |ps|
    ensures PiecesBytes(mon, ps[..i + 1]) == PiecesBytes(mon, ps[..i]) + LeBytes(FieldOf(mon, ps[i].field), ps[i].width)
    ensures Width(ps[..i + 1]) == Width(ps[..i]) + ps[i].width <= Width(ps)
  {
    assert ps[..i + 1][..i] == ps[..i];
    PrefixWidth(ps, i + 1);
  }

  /** A prefix of a list of pieces is no wider than the list. */
  lemma {:induction false} PrefixWidth(ps: seq<Piece>, i: nat)
    requires i <= |ps|
    ensures Width(ps[..i]) <= Width(ps)
    decreases |ps| - i
  {
    if i < |ps| {
      PrefixWidth(ps, i + 1);
      assert ps[..i + 1][..i] == ps[..i];
      assert Width(ps[..i + 1]) == Width(ps[..i]) + ps[i].width;
    } else {
      assert ps[..i] == ps;
    }
  }

  // ---------------------------------------------------------------------
  // The party bitmask of the get/set data commands.
  // ---------------------------------------------------------------------

  /** Bit `i` of a party mask byte. */
  predicate MaskHas(mask: bv8, i: nat)
    requires i < 8
  {
    (mask >> i) & 1 == 1
  }

  /** The party slots below `n` whose bit is set in `mask`, lowest first. */
  function MaskSlotsBelow(mask: bv8, n: nat): seq<nat>
    requires n <= PARTY_SIZE
  {
    if n == 0 then [] else MaskSlotsBelow(mask, n - 1) + (if MaskHas(mask, n - 1) then [n - 1] else [])
  }

  /**
   * The party slots a get or set data command addresses: the battler's own
   * slot `own` when the mask byte is 0, otherwise every slot whose bit is set.
   */
  function SelectedSlots(mask: bv8, own: nat): seq<nat>
  {
    if mask == 0 then [own] else MaskSlotsBelow(mask, PARTY_SIZE)
  }

  /** The slots below `n` are exactly those whose bit is set, each once, in increasing order. */
  lemma {:induction false} MaskSlotsBelowSpec(mask: bv8, n: nat)
    requires n <= PARTY_SIZE
    ensures var r := MaskSlotsBelow(mask, n);
            && (forall j, k | 0 <= j < k < |r| :: r[j] < r[k])
            && (forall i: nat :: i in r <==> i < n && MaskHas(mask, i))
  {
    if n > 0 {
      MaskSlotsBelowSpec(mask, n - 1);
      var r := MaskSlotsBelow(mask, n);
      var r' := MaskSlotsBelow(mask, n - 1);
      forall j, k | 0 <= j < k < |r|
        ensures r[j] < r[k]
      {
        if k >= |r'| {
          assert r[k] == n - 1 && r[j] == r'[j] && r'[j] in r';
        } else {
          assert r[j] == r'[j] && r[k] == r'[k];
        }
      }
    }
  }

  /**
   * The slots a command addresses: with a zero mask only the battler's own
   * slot; otherwise the slots in 0..5 whose bit is set, in increasing order.
   */
  lemma SelectedSlotsSpec(mask: bv8, own: nat)
    ensures mask == 0 ==> SelectedSlots(mask, own) == [own]
    ensures mask != 0 ==>
              var r := SelectedSlots(mask, own);
              && (forall j, k | 0 <= j < k < |r| :: r[j] < r[k])
              && (forall i: nat :: i in r <==> i < PARTY_SIZE && MaskHas(mask, i))
  {
    MaskSlotsBelowSpec(mask, PARTY_SIZE);
  }

  /** A party slot's Pokémon; a slot past the party reads as a Pokémon with no data. */
  function MonAt(party: seq<Mon>, i: nat): Mon
  {
    if i < |party| then party[i] else map[]
  }

  /** The answers about the Pokémon in `slots`, one after the other. */
  function Gathered(req: Request, party: seq<Mon>, slots: seq<nat>, image: StructImage): seq<bv8>
  {
    if slots == [] then []
    else Gathered(req, party, slots[..|slots| - 1], image) + Encoding(req, MonAt(party, slots[|slots| - 1]), image)
  }

  /** The sum of the answer sizes for the Pokémon in `slots`. */
  function TotalSize(req: Request, party: seq<Mon>, slots: seq<nat>, image: StructImage): nat
  {
    if slots == [] then 0
    else TotalSize(req, party, slots[..|slots| - 1], image) + |Encoding(req, MonAt(party, slots[|slots| - 1]), image)|
  }

  /** The gathered answer is as long as the sum of the single answers. */
  lemma {:induction false} GatheredSize(req: Request, party: seq<Mon>, slots: seq<nat>, image: StructImage)
    ensures |Gathered(req, party, slots, image)| == TotalSize(req, party, slots, image)
    decreases |slots|
  {
    if slots != [] {
      GatheredSize(req, party, slots[..|slots| - 1], image);
    }
  }

  /** The answers for the slots below `n` begin the answers for the slots below any larger `m`. */
  lemma {:induction false} GatheredGrows(req: Request, party: seq<Mon>, mask: bv8, n: nat, m: nat, image: StructImage)
    requires n <= m <= PARTY_SIZE
    ensures var short := Gathered(req, party, MaskSlotsBelow(mask, n), image);
            var long := Gathered(req, party, MaskSlotsBelow(mask, m), image);
            |short| <= |long| && long[..|short|] == short
    decreases m - n
  {
    if n < m {
      GatheredGrows(req, party, mask, n, m - 1, image);
      var s := MaskSlotsBelow(mask, m - 1);
      if MaskHas(mask, m - 1) {
        assert (s + [m - 1])[..|s|] == s;
      } else {
        assert s + [] == s;
      }
    }
  }

  /** Appends one answer after the first `size` bytes of `buf`. */
  method AppendAnswer(req: Request, mon: Mon, image: StructImage, buf: array<bv8>, size: nat) returns (n: nat)
    requires size + |Encoding(req, mon, image)| <= buf.Length
    modifies buf
    ensures n == |Encoding(req, mon, image)|
    ensures buf[..size + n] == old(buf[..size]) + Encoding(req, mon, image)
  {
    ghost var before := buf[..];
    n := CopyMonData(req, mon, image, buf, size);
    CopyIntoPrefix(before, size, Encoding(req, mon, image));
    assert buf[..size + n] == buf[..][..size + n];
  }

  /** One more slot of the mask: the gathered answers grow by that slot's answer when its bit is set. */
  lemma GatheredStep(req: Request, party: seq<Mon>, mask: bv8, i: nat, image: StructImage)
    requires i < PARTY_SIZE
    ensures Gathered(req, party, MaskSlotsBelow(mask, i + 1), image)
            == Gathered(req, party, MaskSlotsBelow(mask, i), image)
               + (if MaskHas(mask, i) then Encoding(req, MonAt(party, i), image) else [])
  {
    var s := MaskSlotsBelow(mask, i);
    if MaskHas(mask, i) {
      assert (s + [i])[..|s|] == s;
    } else {
      assert s + [] == s;
    }
  }

  /** Appends the answer about `mon` when it fits after the first `size` bytes, and reports an overrun otherwise. */
  method AppendIfFits(req: Request, mon: Mon, image: StructImage, buf: array<bv8>, size: nat)
    returns (size': nat, overrun: bool)
    requires size <= buf.Length
    modifies buf
    ensures size' <= buf.Length
    ensures overrun <==> size + |Encoding(req, mon, image)| > buf.Length
    ensures !overrun ==> buf[..size'] == old(buf[..size]) + Encoding(req, mon, image)
  {
    if size + |Encoding(req, mon, image)| <= buf.Length {
      var n := AppendAnswer(req, mon, image, buf, size);
      size', overrun := size + n, false;
    } else {
      size', overrun := size, true;
    }
  }

  /** One step of the mask loop: appends slot `i`'s answer when its bit is set and it fits. */
  method AppendSlot(req: Request, party: seq<Mon>, mask: bv8, i: nat, image: StructImage, buf: array<bv8>, size: nat)
    returns (size': nat, overrun: bool)
    requires i < PARTY_SIZE && size <= buf.Length
    requires buf[..size] == Gathered(req, party, MaskSlotsBelow(mask, i), image)
    modifies buf
    ensures size' <= buf.Length
    ensures overrun <==> |Gathered(req, party, MaskSlotsBelow(mask, i + 1), image)| > buf.Length
    ensures !overrun ==> buf[..size'] == Gathered(req, party, MaskSlotsBelow(mask, i + 1), image)
  {
    GatheredStep(req, party, mask, i, image);
    if MaskHas(mask, i) {
      size', overrun := AppendIfFits(req, MonAt(party, i), image, buf, size);
    } else {
      size', overrun := size, false;
    }
  }

  /** The loop over the mask bits: the answers for the slots whose bit is set, written from the start of `buf`. */
  method GatherMasked(req: Request, party: seq<Mon>, mask: bv8, image: StructImage, buf: array<bv8>)
    returns (size: nat, overrun: bool)
    modifies buf
    ensures size <= buf.Length
    ensures overrun <==> |Gathered(req, party, MaskSlotsBelow(mask, PARTY_SIZE), image)| > buf.Length
    ensures !overrun ==> buf[..size] == Gathered(req, party, MaskSlotsBelow(mask, PARTY_SIZE), image)
  {
    size := 0;
    overrun := false;
    var i := 0;
    while i < PARTY_SIZE && !overrun
      invariant 0 <= i <= PARTY_SIZE && size <= buf.Length
      invariant !overrun ==> buf[..size] == Gathered(req, party, MaskSlotsBelow(mask, i), image)
      invariant overrun ==> |Gathered(req, party, MaskSlotsBelow(mask, PARTY_SIZE), image)| > buf.Length
    {
      size, overrun := AppendSlot(req, party, mask, i, image, buf, size);
      if overrun {
        GatheredGrows(req, party, mask, i + 1, PARTY_SIZE, image);
      }
      i := i + 1;
    }
  }

  /**
   * PlayerPartnerHandleGetMonData's gathering: the answers for the addressed
   * slots, written one after the other into a buffer of `capacity` bytes.
   * When they do not all fit, the result reports an overrun instead of
   * writing past the buffer.
   */
  method GatherMonData(req: Request, party: seq<Mon>, mask: bv8, own: nat, image: StructImage, capacity: nat)
    returns (data: seq<bv8>, overrun: bool)
    ensures overrun <==> |Gathered(req, party, SelectedSlots(mask, own), image)| > capacity
    ensures !overrun ==> data == Gathered(req, party, SelectedSlots(mask, own), image)
    ensures !overrun ==> |data| == TotalSize(req, party, SelectedSlots(mask, own), image)
  {
    GatheredSize(req, party, SelectedSlots(mask, own), image);
    var monData := new bv8[capacity];
    var size := 0;
    overrun := false;
    if mask == 0 {
      assert [own][..0] == [];
      if |Encoding(req, MonAt(party, own), image)| <= capacity {
        size := AppendAnswer(req, MonAt(party, own), image, monData, 0);
      } else {
        overrun := true;
      }
    } else {
      size, overrun := GatherMasked(req, party, mask, image, monData);
    }
    data := monData[..size];
  }

  // ---------------------------------------------------------------------
  // SetPlayerPartnerMonData: the set side of the same requests.
  // ---------------------------------------------------------------------

  /**
   * `SetMonData(mon, f, p)`: the value field `f` takes from the bytes at `p`.
   * How many bytes each field reads belongs to the Pokémon storage code, so
   * it is a parameter. Each field, the checksum included, is independent:
   * the recomputation of the checksum after a write is not modelled.
   */
  type FieldStore = (MonField, seq<bv8>) -> int

  /** The fields of the battle struct a struct request carries, read from its bytes. */
  type StructDecode = (Request, seq<bv8>) -> Mon

  /** The bytes from `k` on; none when `k` is past the end. */
  function Drop(s: seq<bv8>, k: nat): (r: seq<bv8>)
    ensures k <= |s| ==> r == s[k..]
  {
    if k <= |s| then s[k..] else []
  }

  /** The fields `REQUEST_ALL_BATTLE` writes back, in the order of the case. */
  const AllBattleFields: set<MonField> :=
    {Species, HeldItem, Move1, Pp1, Move2, Pp2, Move3, Pp3, Move4, Pp4, PpBonuses, Friendship, Exp,
     HpIv, AtkIv, DefIv, SpeedIv, SpAtkIv, SpDefIv, Personality, Status, Level, Hp, MaxHp,
     Atk, Def, Speed, SpAtk, SpDef}

  /** The fields `REQUEST_MOVES_PP_BATTLE` writes back. */
  const MovesPpFields: set<MonField> := {Move1, Pp1, Move2, Pp2, Move3, Pp3, Move4, Pp4, PpBonuses}

  /** The fields a struct request writes back. */
  function StructFields(req: Request): set<MonField>
  {
    if req == ReqAllBattle then AllBattleFields else if req == ReqMovesPp then MovesPpFields else {}
  }

  /** The fields of a piece list. */
  function PieceFields(ps: seq<Piece>): set<MonField>
  {
    set k | 0 <= k < |ps| :: ps[k].field
  }

  /** The fields a set data request writes. */
  function FieldsSet(req: Request): set<MonField>
  {
    if IsStructRequest(req) then StructFields(req) else PieceFields(Pieces(req))
  }

  /** `mon` with the fields in `fields` taken from `src`. */
  function StoreFields(mon: Mon, src: Mon, fields: set<MonField>): (r: Mon)
    ensures forall f :: FieldOf(r, f) == if f in fields then FieldOf(src, f) else FieldOf(mon, f)
  {
    map f | f in mon.Keys + fields :: if f in fields then FieldOf(src, f) else mon[f]
  }

  /** The pieces stored in order, each from the payload bytes at its offset. */
  function StorePieces(mon: Mon, ps: seq<Piece>, payload: seq<bv8>, store: FieldStore): Mon
  {
    if ps == [] then mon
    else
      var init := ps[..|ps| - 1];
      var f := ps[|ps| - 1].field;
      StorePieces(mon, init, payload, store)[f := store(f, Drop(payload, Width(init)))]
  }

  /**
   * The Pokémon after `SetPlayerPartnerMonData` for request `req` with the
   * payload that follows the command header.
   */
  function StoreRequest(req: Request, mon: Mon, payload: seq<bv8>, store: FieldStore, decode: StructDecode): Mon
  {
    if IsStructRequest(req) then StoreFields(mon, decode(req, payload), StructFields(req))
    else StorePieces(mon, Pieces(req), payload, store)
  }

  /** No two pieces of a request name the same field. */
  predicate DistinctFields(ps: seq<Piece>)
  {
    forall j, k | 0 <= j < k < |ps| :: ps[j].field != ps[k].field
  }

  lemma PiecesDistinct(req: Request)
    ensures DistinctFields(Pieces(req))
  {
    PieceCount(req);
  }

  /** Storing pieces writes each piece's field from its offset and leaves every other field alone. */
  lemma StorePiecesSpec(mon: Mon, ps: seq<Piece>, payload: seq<bv8>, store: FieldStore)
    requires DistinctFields(ps)
    ensures var r := StorePieces(mon, ps, payload, store);
            && (forall f :: f !in PieceFields(ps) ==> FieldOf(r, f) == FieldOf(mon, f))
            && (forall k | 0 <= k < |ps| :: FieldOf(r, ps[k].field) == store(ps[k].field, Drop(payload, Width(ps[..k]))))
  {
    StorePiecesKeeps(mon, ps, payload, store);
    StorePiecesWrites(mon, ps, payload, store);
  }

  /** Storing pieces leaves every field that no piece names as it was. */
  lemma {:induction false} StorePiecesKeeps(mon: Mon, ps: seq<Piece>, payload: seq<bv8>, store: FieldStore)
    ensures forall f :: f !in PieceFields(ps) ==> FieldOf(StorePieces(mon, ps, payload, store), f) == FieldOf(mon, f)
  {
    if ps != [] {
      var init := ps[..|ps| - 1];
      StorePiecesKeeps(mon, init, payload, store);
      forall f | f !in PieceFields(ps)
        ensures FieldOf(StorePieces(mon, ps, payload, store), f) == FieldOf(mon, f)
      {
        assert forall k | 0 <= k < |init| :: init[k] == ps[k];
        assert f !in PieceFields(init);
        assert f != ps[|ps| - 1].field;
      }
    }
  }

  /** Storing distinct pieces leaves each piece's field decoded from the payload at that piece's offset. */
  lemma {:induction false} StorePiecesWrites(mon: Mon, ps: seq<Piece>, payload: seq<bv8>, store: FieldStore)
    requires DistinctFields(ps)
    ensures forall k | 0 <= k < |ps| ::
              FieldOf(StorePieces(mon, ps, payload, store), ps[k].field) == store(ps[k].field, Drop(payload, Width(ps[..k])))
  {
    if ps != [] {
      var init := ps[..|ps| - 1];
      assert DistinctFields(init) by {
        assert forall k | 0 <= k < |init| :: init[k] == ps[k];
      }
      StorePiecesWrites(mon, init, payload, store);
      forall k | 0 <= k < |ps|
        ensures FieldOf(StorePieces(mon, ps, payload, store), ps[k].field) == store(ps[k].field, Drop(payload, Width(ps[..k])))
      {
        if k < |init| {
          assert init[k] == ps[k] && init[..k] == ps[..k];
        } else {
          assert ps[..k] == init;
        }
      }
    }
  }

  /**
   * What `SetPlayerPartnerMonData` does to one Pokémon: the fields the
   * request names take their new values — struct requests from the decoded
   * struct, the others each from the payload at the offset the matching get
   * request writes it — and no other field changes.
   */
  lemma StoreRequestSpec(req: Request, mon: Mon, payload: seq<bv8>, store: FieldStore, decode: StructDecode)
    ensures var r := StoreRequest(req, mon, payload, store, decode);
            && (forall f :: f !in FieldsSet(req) ==> FieldOf(r, f) == FieldOf(mon, f))
            && (IsStructRequest(req) ==>
                  forall f :: f in FieldsSet(req) ==> FieldOf(r, f) == FieldOf(decode(req, payload), f))
            && (!IsStructRequest(req) ==>
                  var ps := Pieces(req);
                  forall k | 0 <= k < |ps| :: FieldOf(r, ps[k].field) == store(ps[k].field, Drop(payload, Width(ps[..k]))))
  {
    if !IsStructRequest(req) {
      PiecesDistinct(req);
      StorePiecesSpec(mon, Pieces(req), payload, store);
    }
  }

  /** Field `f` reads its value little-endian from the first `w` bytes it is given. */
  ghost predicate ReadsLe(store: FieldStore, f: MonField, w: nat)
  {
    forall s: seq<bv8> | w <= |s| :: store(f, s) == LeValue(s[..w])
  }

  /** A slice of a concatenation that lies within one side of it. */
  lemma SliceOfConcat(a: seq<bv8>, b: seq<bv8>, i: nat, j: nat)
    requires i <= j <= |a| + |b|
    ensures j <= |a| ==> (a + b)[i .. j] == a[i .. j]
    ensures i == |a| ==> (a + b)[i .. j] == b[..j - i]
  {
    if i == |a| {
      assert (a + b)[i .. j] == b[..j - i];
    }
  }

  /** Piece `k`'s bytes sit at its offset in the bytes of the whole list. */
  lemma {:induction false} PiecesBytesSlice(mon: Mon, ps: seq<Piece>, k: nat)
    requires k < |ps|
    ensures Width(ps[..k]) + ps[k].width <= Width(ps)
    ensures PiecesBytes(mon, ps)[Width(ps[..k]) .. Width(ps[..k]) + ps[k].width]
            == LeBytes(FieldOf(mon, ps[k].field), ps[k].width)
    decreases |ps|
  {
    var init := ps[..|ps| - 1];
    var bytes := PiecesBytes(mon, ps);
    var last := LeBytes(FieldOf(mon, ps[|ps| - 1].field), ps[|ps| - 1].width);
    assert bytes == PiecesBytes(mon, init) + last;
    if k == |ps| - 1 {
      assert ps[..k] == init;
      SliceOfConcat(PiecesBytes(mon, init), last, Width(init), Width(init) + |last|);
    } else {
      PiecesBytesSlice(mon, init, k);
      assert init[..k] == ps[..k] && init[k] == ps[k];
      SliceOfConcat(PiecesBytes(mon, init), last, Width(ps[..k]), Width(ps[..k]) + ps[k].width);
    }
  }

  /**
   * Setting a Pokémon from the bytes the matching get request produced about
   * another restores each field of the request, truncated to the width the
   * request sends it with, whenever each field is read back little-endian at
   * that width.
   */
  lemma SetAfterGet(req: Request, mon: Mon, dst: Mon, image: StructImage, store: FieldStore, decode: StructDecode)
    requires !IsStructRequest(req)
    requires forall k | 0 <= k < |Pieces(req)| :: ReadsLe(store, Pieces(req)[k].field, Pieces(req)[k].width)
    ensures var r := StoreRequest(req, dst, Encoding(req, mon, image), store, decode);
            forall k | 0 <= k < |Pieces(req)| ::
              FieldOf(r, Pieces(req)[k].field) == FieldOf(mon, Pieces(req)[k].field) % Pow256(Pieces(req)[k].width)
  {
    var ps := Pieces(req);
    var enc := Encoding(req, mon, image);
    assert enc == PiecesBytes(mon, ps);
    StoreRequestSpec(req, dst, enc, store, decode);
    forall k | 0 <= k < |ps|
      ensures store(ps[k].field, Drop(enc, Width(ps[..k]))) == FieldOf(mon, ps[k].field) % Pow256(ps[k].width)
    {
      PieceReadBack(mon, ps, k, store);
    }
  }

  /**
   * The two widened requests: the get sends only the low 3 bytes of the
   * `u32` OT id or EXP, while `SetMonData` reads the whole `u32` from the
   * payload. The field set back is then the low 3 bytes of the original
   * with whatever byte follows them in the buffer as its high byte, so the
   * round trip holds exactly when that byte is the original's high byte.
   */
  lemma WidenedSetAfterGet(req: Request, mon: Mon, dst: Mon, image: StructImage, store: FieldStore,
                           decode: StructDecode, following: bv8)
    requires req.ReqOtId? || req.ReqExp?
    requires ReadsLe(store, Pieces(req)[0].field, 4)
    ensures var f := Pieces(req)[0].field;
            var r := StoreRequest(req, dst, Encoding(req, mon, image) + [following], store, decode);
            && FieldOf(r, f) == FieldOf(mon, f) % 0x100_0000 + following as nat * 0x100_0000
            && (0 <= FieldOf(mon, f) < 0x1_0000_0000 ==>
                  (FieldOf(r, f) == FieldOf(mon, f) <==> following as nat == FieldOf(mon, f) / 0x100_0000))
  {
    var ps := Pieces(req);
    var f := ps[0].field;
    var enc := Encoding(req, mon, image);
    var payload := enc + [following];
    assert enc == LeBytes(FieldOf(mon, f), 3) by {
      assert ps[..0] == [];
    }
    StoreRequestSpec(req, dst, payload, store, decode);
    assert ps[..0] == [];
    assert payload[..4] == payload;
    LeValueSnoc(enc, following);
    LeValueOfLeBytes(FieldOf(mon, f), 3);
    assert Pow256(1) == 0x100 && Pow256(2) == 0x1_0000;
    assert Pow256(3) == 0x100_0000;
    if 0 <= FieldOf(mon, f) < 0x1_0000_0000 {
      HighByteReplaced(FieldOf(mon, f), following as nat);
    }
  }

  /** Replacing the high byte of a `u32` keeps it exactly when the new byte is the old one. */
  lemma HighByteReplaced(v: int, b: nat)
    requires 0 <= v < 0x1_0000_0000 && b < 256
    ensures v % 0x100_0000 + b * 0x100_0000 == v <==> b == v / 0x100_0000
  {
    if v % 0x100_0000 + b * 0x100_0000 == v {
      DivModUnique(v, 0x100_0000, b, v % 0x100_0000);
    }
  }

  /** Multiplying by the next power of 256 is multiplying by this one, then by 256. */
  lemma MulByteShift(a: int, p: int)
    ensures a * (256 * p) == 256 * (a * p)
  {
  }

  /** One more byte at the end of a little-endian string adds it at the next power of 256. */
  lemma {:induction false} LeValueSnoc(s: seq<bv8>, b: bv8)
    ensures LeValue(s + [b]) == LeValue(s) + b as nat * Pow256(|s|)
  {
    if s != [] {
      var t := s[1..];
      assert (s + [b])[0] == s[0] && (s + [b])[1..] == t + [b];
      LeValueSnoc(t, b);
      var x: int, bn: int, lt: int, p: int := s[0] as int, b as int, LeValue(t), Pow256(|t|);
      assert LeValue(t + [b]) == lt + bn * p;
      assert LeValue(s + [b]) == x + 256 * (lt + bn * p);
      assert LeValue(s) == x + 256 * lt;
      assert Pow256(|s|) == 256 * p;
      var q := bn * p;
      assert 256 * (lt + q) == 256 * lt + 256 * q;
      MulByteShift(bn, p);
    }
  }


  /** Piece `k` read back little-endian from its offset is its field, truncated to its width. */
  lemma PieceReadBack(mon: Mon, ps: seq<Piece>, k: nat, store: FieldStore)
    requires k < |ps| && ReadsLe(store, ps[k].field, ps[k].width)
    ensures store(ps[k].field, Drop(PiecesBytes(mon, ps), Width(ps[..k])))
            == FieldOf(mon, ps[k].field) % Pow256(ps[k].width)
  {
    var f, w, v := ps[k].field, ps[k].width, FieldOf(mon, ps[k].field);
    var bytes := PiecesBytes(mon, ps);
    var at := Width(ps[..k]);
    PiecesBytesSlice(mon, ps, k);
    var s := Drop(bytes, at);
    assert s == bytes[at..];
    assert s[..w] == bytes[at .. at + w] == LeBytes(v, w);
    assert store(f, s) == LeValue(s[..w]);
    LeValueOfLeBytes(v, w);
  }

  /**
   * The slot loop of PlayerPartnerHandleSetMonData, for any update of one
   * Pokémon: every addressed slot is updated and the others stay as they
   * were. An own slot past the party changes nothing.
   */
  method UpdateSlots(party: seq<Mon>, mask: bv8, own: nat, update: Mon -> Mon) returns (r: seq<Mon>)
    ensures |r| == |party|
    ensures forall i | 0 <= i < |party| :: r[i] == if i in SelectedSlots(mask, own) then update(party[i]) else party[i]
  {
    r := party;
    if mask == 0 {
      if own < |party| {
        r := r[own := update(party[own])];
      }
    } else {
      MaskSlotsBelowSpec(mask, PARTY_SIZE);
      var i := 0;
      while i < PARTY_SIZE
        invariant 0 <= i <= PARTY_SIZE && |r| == |party|
        invariant forall j | 0 <= j < |party| :: r[j] == if j < i && MaskHas(mask, j) then update(party[j]) else party[j]
      {
        if MaskHas(mask, i) && i < |r| {
          r := r[i := update(party[i])];
        }
        i := i + 1;
      }
    }
  }

  /**
   * PlayerPartnerHandleSetMonData: every addressed slot of the party is set
   * from the payload and the others stay as they were.
   */
  method SetPartyData(req: Request, party: seq<Mon>, mask: bv8, own: nat, payload: seq<bv8>,
                      store: FieldStore, decode: StructDecode) returns (r: seq<Mon>)
    ensures |r| == |party|
    ensures forall i | 0 <= i < |party| ::
              r[i] == if i in SelectedSlots(mask, own) then StoreRequest(req, party[i], payload, store, decode) else party[i]
  {
    r := UpdateSlots(party, mask, own, m => StoreRequest(req, m, payload, store, decode));
  }
}
