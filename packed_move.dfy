/**
 * The 16-bit packed `Move` of crates/chess_core/src/types.rs.
 *
 * Field layout as the code has it: bits 0-5 from-square, bits 6-11
 * to-square, bits 12-14 promotion code (0 none, 1 knight, 2 bishop,
 * 3 rook, 4 queen), bit 15 en-passant flag, bit 14 castle flag. The
 * promotion field and the castle flag share bit 14; the lemmas below
 * exhibit the consequences, and CorrectedMove is a layout in which the
 * fields are independent.
 */
module PackedMoves {
  import opened Wrappers
  import opened Types

  const FROM_MASK: bv16 := 0x3F
  const TO_SHIFT: bv16 := 6
  const TO_MASK: bv16 := 0x3F << 6
  const PROMO_SHIFT: bv16 := 12
  const PROMO_MASK: bv16 := 0x07 << 12
  const EP_FLAG: bv16 := 1 << 15
  const CASTLE_FLAG: bv16 := 1 << 14

  /** Bits of `Move::new(from, to)`. */
  function NewBits(from: bv8, to: bv8): bv16
  {
    (from as bv16) | ((to as bv16) << TO_SHIFT)
  }

  function FromOf(bits: bv16): bv8
  {
    (bits & FROM_MASK) as bv8
  }

  function ToOf(bits: bv16): bv8
  {
    ((bits & TO_MASK) >> TO_SHIFT) as bv8
  }

  /** Decoding of the promotion field; codes 5..7 read as no promotion. */
  function PromoOf(bits: bv16): Option<PieceKind>
  {
    var code := (bits >> PROMO_SHIFT) & 0x07;
    if code == 1 then Some(Knight)
    else if code == 2 then Some(Bishop)
    else if code == 3 then Some(Rook)
    else if code == 4 then Some(Queen)
    else None
  }

  /** Encoding of a promotion piece; Pawn and King encode as no promotion. */
  function PromoCode(promo: Option<PieceKind>): (code: bv16)
    ensures code <= 4
  {
    match promo
    case None => 0
    case Some(Knight) => 1
    case Some(Bishop) => 2
    case Some(Rook) => 3
    case Some(Queen) => 4
    case Some(_) => 0
  }

  function WithPromoBits(bits: bv16, promo: Option<PieceKind>): bv16
  {
    (bits & !PROMO_MASK) | (PromoCode(promo) << PROMO_SHIFT)
  }

  function IsEnPassantOf(bits: bv16): bool
  {
    bits & EP_FLAG != 0
  }

  function IsCastleOf(bits: bv16): bool
  {
    bits & CASTLE_FLAG != 0
  }

  function WithFlagBits(bits: bv16, flag: bv16, value: bool): bv16
  {
    if value then bits | flag else bits & !flag
  }

  /** A fresh move reads back its squares and carries no promotion or flag. */
  lemma NewReadsBack(from: bv8, to: bv8)
    requires from < 64 && to < 64
    ensures FromOf(NewBits(from, to)) == from && ToOf(NewBits(from, to)) == to
    ensures PromoOf(NewBits(from, to)).None?
    ensures !IsEnPassantOf(NewBits(from, to)) && !IsCastleOf(NewBits(from, to))
  {
  }

  /**
   * A to-square of 64 or more spills into the promotion field: the
   * to-square reads back as its low six bits and the two high bits read
   * as a knight, bishop or rook promotion.
   */
  lemma WideToSquareSpills(from: bv8, to: bv8)
    requires from < 64 && to >= 64
    ensures FromOf(NewBits(from, to)) == from && ToOf(NewBits(from, to)) == to & 0x3F
    ensures PromoOf(NewBits(from, to)) == Some(if to < 128 then Knight else if to < 192 then Bishop else Rook)
    ensures !IsEnPassantOf(NewBits(from, to)) && !IsCastleOf(NewBits(from, to))
  {
  }

  /** Setting a knight, bishop or rook promotion reads back and keeps squares and en passant. */
  lemma SetMinorPromoReadsBack(bits: bv16, k: PieceKind)
    requires k == Knight || k == Bishop || k == Rook
    ensures PromoOf(WithPromoBits(bits, Some(k))) == Some(k)
    ensures FromOf(WithPromoBits(bits, Some(k))) == FromOf(bits)
    ensures ToOf(WithPromoBits(bits, Some(k))) == ToOf(bits)
    ensures IsEnPassantOf(WithPromoBits(bits, Some(k))) == IsEnPassantOf(bits)
    ensures !IsCastleOf(WithPromoBits(bits, Some(k)))
  {
  }

  /**
   * Every promotion update keeps the squares and the en-passant flag, and
   * the field reads back the piece when it is one of the four promotion
   * targets and no promotion otherwise (`None`, Pawn and King all encode as 0).
   */
  lemma SetPromoReadsBack(bits: bv16, promo: Option<PieceKind>)
    ensures PromoOf(WithPromoBits(bits, promo)) == if PromotablePiece(promo) then promo else None
    ensures FromOf(WithPromoBits(bits, promo)) == FromOf(bits)
    ensures ToOf(WithPromoBits(bits, promo)) == ToOf(bits)
    ensures IsEnPassantOf(WithPromoBits(bits, promo)) == IsEnPassantOf(bits)
  {
    match promo
    case Some(Queen) => QueenPromoKeeps(bits);
    case Some(Knight) => SetMinorPromoReadsBack(bits, Knight);
    case Some(Bishop) => SetMinorPromoReadsBack(bits, Bishop);
    case Some(Rook) => SetMinorPromoReadsBack(bits, Rook);
    case _ => PromoClearReadsNone(bits, promo);
  }

  /** Clearing the promotion, or setting a Pawn or King, reads back as no promotion and keeps the other fields. */
  lemma PromoClearReadsNone(bits: bv16, promo: Option<PieceKind>)
    requires promo == None || promo == Some(Pawn) || promo == Some(King)
    ensures PromoOf(WithPromoBits(bits, promo)) == None
    ensures FromOf(WithPromoBits(bits, promo)) == FromOf(bits)
    ensures ToOf(WithPromoBits(bits, promo)) == ToOf(bits)
    ensures IsEnPassantOf(WithPromoBits(bits, promo)) == IsEnPassantOf(bits)
    ensures !IsCastleOf(WithPromoBits(bits, promo))
  {
    assert PromoCode(promo) == 0;
  }

  /** A queen promotion reads back and keeps the squares and the en-passant flag. */
  lemma QueenPromoKeeps(bits: bv16)
    ensures PromoOf(WithPromoBits(bits, Some(Queen))) == Some(Queen)
    ensures FromOf(WithPromoBits(bits, Some(Queen))) == FromOf(bits)
    ensures ToOf(WithPromoBits(bits, Some(Queen))) == ToOf(bits)
    ensures IsEnPassantOf(WithPromoBits(bits, Some(Queen))) == IsEnPassantOf(bits)
  {
  }

  /**
   * The castle flag reads back what was set and keeps the squares and the
   * en-passant flag; it does not keep the promotion (CastleReadsAsQueenPromotion).
   */
  lemma CastleFlagIndependent(bits: bv16, value: bool)
    ensures IsCastleOf(WithFlagBits(bits, CASTLE_FLAG, value)) == value
    ensures FromOf(WithFlagBits(bits, CASTLE_FLAG, value)) == FromOf(bits)
    ensures ToOf(WithFlagBits(bits, CASTLE_FLAG, value)) == ToOf(bits)
    ensures IsEnPassantOf(WithFlagBits(bits, CASTLE_FLAG, value)) == IsEnPassantOf(bits)
  {
    CastleKeepsSquares(bits, value);
    CastleKeepsEnPassant(bits, value);
  }

  lemma CastleKeepsSquares(bits: bv16, value: bool)
    ensures FromOf(WithFlagBits(bits, CASTLE_FLAG, value)) == FromOf(bits)
    ensures ToOf(WithFlagBits(bits, CASTLE_FLAG, value)) == ToOf(bits)
  {
  }

  lemma CastleKeepsEnPassant(bits: bv16, value: bool)
    ensures IsEnPassantOf(WithFlagBits(bits, CASTLE_FLAG, value)) == IsEnPassantOf(bits)
  {
  }

  /** As written: a queen promotion reads as a castling move. */
  lemma QueenPromotionReadsAsCastle(from: bv8, to: bv8)
    requires from < 64 && to < 64
    ensures PromoOf(WithPromoBits(NewBits(from, to), Some(Queen))) == Some(Queen)
    ensures IsCastleOf(WithPromoBits(NewBits(from, to), Some(Queen)))
  {
  }

  /** As written: flagging a move as castling makes it read as a queen promotion. */
  lemma CastleReadsAsQueenPromotion(from: bv8, to: bv8)
    requires from < 64 && to < 64
    ensures PromoOf(WithFlagBits(NewBits(from, to), CASTLE_FLAG, true)) == Some(Queen)
  {
  }

  /** As written: any promotion update erases the castle flag. */
  lemma SetPromoClearsCastle(bits: bv16, promo: Option<PieceKind>)
    requires promo != Some(Queen)
    ensures !IsCastleOf(WithPromoBits(bits, promo))
  {
  }

  /** The en-passant flag is independent of the other fields. */
  lemma EnPassantFlagIndependent(bits: bv16, value: bool)
    ensures IsEnPassantOf(WithFlagBits(bits, EP_FLAG, value)) == value
    ensures FromOf(WithFlagBits(bits, EP_FLAG, value)) == FromOf(bits)
    ensures ToOf(WithFlagBits(bits, EP_FLAG, value)) == ToOf(bits)
    ensures PromoOf(WithFlagBits(bits, EP_FLAG, value)) == PromoOf(bits)
    ensures IsCastleOf(WithFlagBits(bits, EP_FLAG, value)) == IsCastleOf(bits)
  {
    EnPassantKeepsSquares(bits, value);
    EnPassantKeepsPromo(bits, value);
  }

  lemma EnPassantKeepsSquares(bits: bv16, value: bool)
    ensures FromOf(WithFlagBits(bits, EP_FLAG, value)) == FromOf(bits)
    ensures ToOf(WithFlagBits(bits, EP_FLAG, value)) == ToOf(bits)
  {
  }

  lemma EnPassantKeepsPromo(bits: bv16, value: bool)
    ensures PromoOf(WithFlagBits(bits, EP_FLAG, value)) == PromoOf(bits)
  {
  }

  /** The packed move, updated in place by its setters. */
  class PackedMove {
    var bits: bv16

    constructor New(from: bv8, to: bv8)
      ensures bits == NewBits(from, to)
    {
      bits := NewBits(from, to);
    }

    /** `from()`: the low six bits, a square below 64. */
    function From(): (f: bv8)
      reads this
      ensures f < 64
    {
      FromOf(bits)
    }

    /** `to()`: bits 6-11, a square below 64. */
    function To(): (t: bv8)
      reads this
      ensures t < 64
    {
      ToOf(bits)
    }

    /** `promo()`: never a Pawn or a King. */
    function Promo(): (p: Option<PieceKind>)
      reads this
      ensures PromotablePiece(p)
    {
      PromoOf(bits)
    }

    /** `is_en_passant()`: the top bit, set exactly when the bits are at least 2^15. */
    function IsEnPassant(): (e: bool)
      reads this
      ensures e <==> bits >= EP_FLAG
    {
      IsEnPassantOf(bits)
    }

    /** `is_castle()`: bit 14, which is set exactly when the promotion code is 4 or more. */
    function IsCastle(): (c: bool)
      reads this
      ensures c <==> (bits >> PROMO_SHIFT) & 0x07 >= 4
    {
      IsCastleOf(bits)
    }

    method SetPromo(promo: Option<PieceKind>)
      modifies this
      ensures bits == WithPromoBits(old(bits), promo)
    {
      bits := bits & !PROMO_MASK;
      bits := bits | (PromoCode(promo) << PROMO_SHIFT);
    }

    method SetEnPassant(value: bool)
      modifies this
      ensures IsEnPassant() == value
      ensures bits == WithFlagBits(old(bits), EP_FLAG, value)
    {
      if value {
        bits := bits | EP_FLAG;
      } else {
        bits := bits & !EP_FLAG;
      }
    }

    method SetCastle(value: bool)
      modifies this
      ensures IsCastle() == value
      ensures bits == WithFlagBits(old(bits), CASTLE_FLAG, value)
    {
      if value {
        bits := bits | CASTLE_FLAG;
      } else {
        bits := bits & !CASTLE_FLAG;
      }
    }

    /** `with_promo`: a fresh move from the squares, then the promotion set. */
    static method WithPromo(from: bv8, to: bv8, promo: PieceKind) returns (m: PackedMove)
      ensures fresh(m)
      ensures m.bits == WithPromoBits(NewBits(from, to), Some(promo))
    {
      m := new PackedMove.New(from, to);
      m.SetPromo(Some(promo));
    }
  }

  /** The fields a packed move carries, at their source widths. */
  datatype MoveFields = MoveFields(from: bv8, to: bv8, promo: Option<PieceKind>, isEnPassant: bool, isCastle: bool)

  /**
   * A corrected packing in 32 bits: from 0-5, to 6-11, promotion code
   * 12-14, en passant bit 15, castle bit 16. Every field reads back what
   * was packed, independently of the others.
   */
  function CorrectedPack(m: MoveFields): bv32
  {
    ((m.from & 0x3F) as bv32)
    | (((m.to & 0x3F) as bv32) << 6)
    | ((PromoCode(m.promo) as bv32) << 12)
    | (if m.isEnPassant then 1 << 15 else 0)
    | (if m.isCastle then 1 << 16 else 0)
  }

  function CorrectedUnpack(bits: bv32): MoveFields
  {
    var code := (bits >> 12) & 0x07;
    MoveFields(
      (bits & 0x3F) as bv8,
      ((bits >> 6) & 0x3F) as bv8,
      if code == 1 then Some(Knight)
      else if code == 2 then Some(Bishop)
      else if code == 3 then Some(Rook)
      else if code == 4 then Some(Queen)
      else None,
      bits & (1 << 15) != 0,
      bits & (1 << 16) != 0)
  }

  /** Promotion targets that the packing can represent. */
  predicate PromotablePiece(promo: Option<PieceKind>)
  {
    promo.None? || promo.value in {Knight, Bishop, Rook, Queen}
  }

  lemma CorrectedRoundTrip(m: MoveFields)
    requires m.from < 64 && m.to < 64 && PromotablePiece(m.promo)
    ensures CorrectedUnpack(CorrectedPack(m)) == m
  {
    CorrectedSquares(m);
    CorrectedPromoCode(m);
    CorrectedFlags(m);
  }

  lemma CorrectedSquares(m: MoveFields)
    requires m.from < 64 && m.to < 64
    ensures (CorrectedPack(m) & 0x3F) as bv8 == m.from
    ensures ((CorrectedPack(m) >> 6) & 0x3F) as bv8 == m.to
  {
  }

  lemma CorrectedPromoCode(m: MoveFields)
    ensures (CorrectedPack(m) >> 12) & 0x07 == PromoCode(m.promo) as bv32
  {
  }

  lemma CorrectedFlags(m: MoveFields)
    ensures (CorrectedPack(m) & (1 << 15) != 0) == m.isEnPassant
    ensures (CorrectedPack(m) & (1 << 16) != 0) == m.isCastle
  {
  }
}
