/** Recognition of Nintendo DS cartridges by their header. */
module NdsHeader {
  import opened Bytes
  import opened Checksum
  import opened LittleEndian

  const HEADER_END: nat := 0x1000
  const CHECKED: nat := 0x15e
  const LOGO_AT: nat := 0xc0
  const LOGO_SIZE: nat := 156

  predicate SectionValid(romSize: nat, offset: nat, size: nat) {
    offset >= 0x200 && size != 0 && offset <= romSize && size <= romSize - offset
  }

  function Field(data: seq<byte>, at: nat, size: nat): nat
    requires at + size <= |data|
  {
    Get(data[at..at + size])
  }

  /** `has_valid_nds_header`, for the bitmap that every cartridge carries. */
  predicate Valid(data: seq<byte>, logo: seq<byte>) {
    && |data| >= HEADER_END
    && (data[0x12] == 0x00 || data[0x12] == 0x02)
    && data[LOGO_AT..LOGO_AT + LOGO_SIZE] == logo
    && Field(data, 0x15c, 2) == Check(data[LOGO_AT..LOGO_AT + LOGO_SIZE])
    && Field(data, CHECKED, 2) == Check(data[..CHECKED])
    && SectionValid(|data|, Field(data, 0x20, 4), Field(data, 0x2c, 4))
    && SectionValid(|data|, Field(data, 0x30, 4), Field(data, 0x3c, 4))
  }

  function Check(data: seq<byte>): nat {
    Crc16(data) as int
  }

  /** The header test, with its two checksum loops. */
  method Recognise(data: seq<byte>, logo: seq<byte>) returns (valid: bool)
    ensures valid == Valid(data, logo)
  {
    if |data| < HEADER_END || (data[0x12] != 0x00 && data[0x12] != 0x02) || data[LOGO_AT..LOGO_AT + LOGO_SIZE] != logo {
      return false;
    }
    var logoCheck := ComputeCrc16(data[LOGO_AT..LOGO_AT + LOGO_SIZE]);
    var headerCheck := ComputeCrc16(data[..CHECKED]);
    valid := Field(data, 0x15c, 2) == logoCheck as int && Field(data, CHECKED, 2) == headerCheck as int
             && SectionValid(|data|, Field(data, 0x20, 4), Field(data, 0x2c, 4))
             && SectionValid(|data|, Field(data, 0x30, 4), Field(data, 0x3c, 4));
  }

  lemma CheckDetectsOneByte(data: seq<byte>, i: nat, v: byte)
    requires i < |data| && data[i] != v
    ensures Check(data[i := v]) != Check(data)
  {
    var x, y := Crc16(data[i := v]), Crc16(data);
    Crc16DetectsOneByte(0xFFFF, data, i, v, |data|);
    assert (x as int) as bv16 == x && (y as int) as bv16 == y;
  }

  /** The checksum test alone notices a change of any one byte it covers or of its own two bytes. */
  lemma ChecksumNotices(data: seq<byte>, i: nat, v: byte)
    requires |data| >= HEADER_END && i < 0x160 && data[i] != v
    requires Field(data, CHECKED, 2) == Check(data[..CHECKED])
    ensures Field(data[i := v], CHECKED, 2) != Check(data[i := v][..CHECKED])
  {
    var changed := data[i := v];
    var x, y := changed[CHECKED..CHECKED + 2], data[CHECKED..CHECKED + 2];
    if i < CHECKED {
      assert changed[..CHECKED] == data[..CHECKED][i := v];
      assert x == y;
      CheckDetectsOneByte(data[..CHECKED], i, v);
    } else {
      assert changed[..CHECKED] == data[..CHECKED];
      assert x[i - CHECKED] != y[i - CHECKED];
      GetInjective(x, y);
    }
  }

  /** Any one-byte change in the first 0x160 bytes of a valid header makes the check fail. */
  lemma OneByteChangeRejected(data: seq<byte>, logo: seq<byte>, i: nat, v: byte)
    requires Valid(data, logo) && i < 0x160 && data[i] != v
    ensures !Valid(data[i := v], logo)
  {
    ChecksumNotices(data, i, v);
  }
}
