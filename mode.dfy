/**
 * The mode bits the permission checker consumes. The source's `Mode` class is not part of this
 * model: `Mode.Bits` becomes a subset of {read, write, execute}, and the 16-bit mode keeps the
 * usual layout of three bits each for owner (bits 6-8), group (bits 3-5) and other (bits 0-2).
 */
module Mode {

  datatype Bit = Read | Write | Execute

  /** `Mode.Bits`: `imply` is the superset test, `or` is union. */
  type Bits = set<Bit>

  const NONE: Bits := {}
  const EXECUTE: Bits := {Execute}
  const WRITE: Bits := {Write}
  const READ: Bits := {Read}
  const ALL: Bits := {Read, Write, Execute}

  /** Java's `short`. */
  newtype Short = x: int | -0x8000 <= x < 0x8000

  /** The mode of a freshly built permission record (`Constants.INVALID_MODE`). */
  const INVALID_MODE: Short := -1

  /** `Bits.imply`: every bit of `want` is also in `have`. */
  predicate Imply(have: Bits, want: Bits) {
    want <= have
  }

  /** `Bits.or`. */
  function Or(a: Bits, b: Bits): Bits {
    a + b
  }

  /** The bit set whose ordinal is `v`: 4 is read, 2 is write, 1 is execute. */
  function FromOctal(v: int): Bits
    requires 0 <= v < 8
  {
    (if v / 4 % 2 == 1 then {Read} else {}) +
    (if v / 2 % 2 == 1 then {Write} else {}) +
    (if v % 2 == 1 then {Execute} else {})
  }

  /** The ordinal of a bit set. */
  function ToOctal(b: Bits): (v: int)
    ensures 0 <= v < 8
  {
    (if Read in b then 4 else 0) + (if Write in b then 2 else 0) + (if Execute in b then 1 else 0)
  }

  lemma OctalRoundTrip(b: Bits)
    ensures FromOctal(ToOctal(b)) == b
  {
    var r := FromOctal(ToOctal(b));
    forall x: Bit ensures x in r <==> x in b {
      match x
      case Read =>
      case Write =>
      case Execute =>
    }
  }

  lemma OctalRoundTripBack(v: int)
    requires 0 <= v < 8
    ensures ToOctal(FromOctal(v)) == v
  {
  }

  /** The low 16 bits of the mode read as an unsigned number, as the shift operators see them. */
  function Unsigned(m: Short): (u: int)
    ensures 0 <= u < 0x1_0000
    ensures u % 0x1_0000 == (m as int) % 0x1_0000
  {
    if m < 0 then m as int + 0x1_0000 else m as int
  }

  /** `Mode.extractOwnerBits`: bits 6-8. */
  function OwnerBits(m: Short): Bits {
    FromOctal(Unsigned(m) / 64 % 8)
  }

  /** `Mode.extractGroupBits`: bits 3-5. */
  function GroupBits(m: Short): Bits {
    FromOctal(Unsigned(m) / 8 % 8)
  }

  /** `Mode.extractOtherBits`: bits 0-2. */
  function OtherBits(m: Short): Bits {
    FromOctal(Unsigned(m) % 8)
  }

  /** The mode with the given owner, group and other classes (e.g. 0750 for rwx, r-x, ---). */
  function Pack(owner: Bits, group: Bits, other: Bits): (m: Short)
    ensures 0 <= m < 512
  {
    (ToOctal(owner) * 64 + ToOctal(group) * 8 + ToOctal(other)) as Short
  }

  /** Extracting the three classes of a packed mode gives back what was packed. */
  lemma ExtractPack(owner: Bits, group: Bits, other: Bits)
    ensures OwnerBits(Pack(owner, group, other)) == owner
    ensures GroupBits(Pack(owner, group, other)) == group
    ensures OtherBits(Pack(owner, group, other)) == other
  {
    var o, g, t := ToOctal(owner), ToOctal(group), ToOctal(other);
    var u := Unsigned(Pack(owner, group, other));
    assert u == o * 64 + g * 8 + t;
    assert u / 64 % 8 == o;
    assert u / 8 % 8 == g;
    assert u % 8 == t;
    OctalRoundTrip(owner);
    OctalRoundTrip(group);
    OctalRoundTrip(other);
  }

  /** The default record's mode, all sixteen bits set, grants every bit to every class. */
  lemma InvalidModeGrantsAll()
    ensures OwnerBits(INVALID_MODE) == ALL
    ensures GroupBits(INVALID_MODE) == ALL
    ensures OtherBits(INVALID_MODE) == ALL
  {
    assert Unsigned(INVALID_MODE) == 0xffff;
    assert FromOctal(7) == ALL;
  }
}
