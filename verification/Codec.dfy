/** The blocks of USB Mass Storage Class Bulk-Only Transport 1.0 (sections 5.1 and 5.2)
    and the ten-byte SCSI commands carried in them. */
module Codec {
  import opened Bytes

  /** A command block wrapper; `incoming` is the direction bit. */
  datatype Cbw = Cbw(tag: u32, length: u32, incoming: bool, lun: byte, cdb: seq<byte>)

  predicate WellFormed(c: Cbw) {
    c.lun <= 15 && 1 <= |c.cdb| <= 16
  }

  function EncodeCbw(c: Cbw): (b: seq<byte>)
    requires WellFormed(c)
    ensures |b| == 31
  {
    [0x55, 0x53, 0x42, 0x43] + Le32(c.tag) + Le32(c.length)
    + [if c.incoming then 0x80 else 0, c.lun, |c.cdb|]
    + c.cdb + Zeros(16 - |c.cdb|)
  }

  /** What a device reads: a valid and meaningful wrapper, or nothing. */
  function DecodeCbw(b: seq<byte>): Option<Cbw> {
    if |b| != 31 || b[..4] != [0x55, 0x53, 0x42, 0x43] || (b[12] != 0 && b[12] != 0x80)
       || b[13] > 15 || b[14] < 1 || b[14] > 16 then None
    else Some(Cbw(FromLe32(b[4..8]), FromLe32(b[8..12]), b[12] == 0x80, b[13], b[15..15 + b[14]]))
  }

  lemma CbwRoundTrip(c: Cbw)
    requires WellFormed(c)
    ensures DecodeCbw(EncodeCbw(c)) == Some(c)
    ensures forall i :: 15 + |c.cdb| <= i < 31 ==> EncodeCbw(c)[i] == 0
  {
    var b := EncodeCbw(c);
    assert b[4..8] == Le32(c.tag);
    assert b[8..12] == Le32(c.length);
    assert b[15..15 + |c.cdb|] == c.cdb;
    Le32RoundTrip(c.tag);
    Le32RoundTrip(c.length);
  }

  function EncodeCsw(tag: u32, residue: u32, code: byte): (b: seq<byte>)
    ensures |b| == 13
  {
    [0x55, 0x53, 0x42, 0x53] + Le32(tag) + Le32(residue) + [code]
  }

  /** The host's test of section 6.3: a 13-byte block with the signature and this command's tag. */
  predicate ValidCsw(b: seq<byte>, tag: u32) {
    |b| == 13 && b[..4] == [0x55, 0x53, 0x42, 0x53] && b[4..8] == Le32(tag)
  }

  lemma CswRoundTrip(tag: u32, residue: u32, code: byte)
    ensures var b := EncodeCsw(tag, residue, code);
            ValidCsw(b, tag) && FromLe32(b[8..12]) == residue && b[12] == code
  {
    var b := EncodeCsw(tag, residue, code);
    assert b[..4] == [0x55, 0x53, 0x42, 0x53];
    assert b[4..8] == Le32(tag);
    assert b[8..12] == Le32(residue);
    Le32RoundTrip(residue);
  }

  /** One status block is valid for one tag only. */
  lemma CswNamesOneCommand(b: seq<byte>, t: u32, u: u32)
    requires ValidCsw(b, t)
    ensures ValidCsw(b, u) <==> t == u
  {
    Le32RoundTrip(t);
    Le32RoundTrip(u);
  }

  // ----- Block commands -----

  const READ10: byte := 0x28
  const WRITE10: byte := 0x2a

  datatype BlockCdb = BlockCdb(op: byte, lba: u32, count: u16)

  function EncodeBlock(c: BlockCdb): (b: seq<byte>)
    ensures |b| == 10
  {
    [c.op, 0] + Be32(c.lba) + [0] + Be16(c.count) + [0]
  }

  function DecodeBlock(b: seq<byte>): BlockCdb
    requires |b| == 10
  {
    BlockCdb(b[0], FromBe32(b[2..6]), FromBe16(b[7..9]))
  }

  lemma BlockRoundTrip(c: BlockCdb)
    ensures DecodeBlock(EncodeBlock(c)) == c
  {
    var b := EncodeBlock(c);
    assert b[2..6] == Be32(c.lba);
    assert b[7..9] == Be16(c.count);
    Le32RoundTrip(c.lba);
    Be16RoundTrip(c.count);
  }

  /** The device recovers tag, length, direction, unit, opcode, address and count from the
      31 bytes alone, and two different commands never share an encoding. */
  lemma WireRoundTrip(c: Cbw, d: Cbw, b: BlockCdb, e: BlockCdb)
    requires c.lun <= 15 && c.cdb == EncodeBlock(b)
    requires d.lun <= 15 && d.cdb == EncodeBlock(e)
    ensures DecodeCbw(EncodeCbw(c)) == Some(c) && DecodeBlock(c.cdb) == b
    ensures EncodeCbw(c) == EncodeCbw(d) <==>
            c.tag == d.tag && c.length == d.length && c.incoming == d.incoming && c.lun == d.lun && b == e
  {
    CbwRoundTrip(c);
    CbwRoundTrip(d);
    BlockRoundTrip(b);
    BlockRoundTrip(e);
  }
}
