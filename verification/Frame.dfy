/** The frames of the unit link: 's' 'm' p command data... checksum, where p is
    the position of the 16-bit checksum.  Building and sealing a frame, the
    checks a received frame goes through, and what those checks detect. */
module Frame {
  import opened Layout

  const BUFFER: nat := 128
  const START_MSG_0: byte := 115  // 's'
  const START_MSG_1: byte := 109  // 'm'
  const POS_CRC_LO: nat := 2
  const TYPE_COMAND: nat := 3
  const START_DATA: nat := 4

  const COMMAND_DATA_DEBUG: byte := 68     // 'D'
  const COMMAND_POLLING_BASE: byte := 80   // 'P'
  const COMMAND_READ_EEPROM: byte := 82    // 'R'
  const COMMAND_WRITE_EEPROM: byte := 87   // 'W'

  // Read_Message results
  const RUN_DOWNLOAD: int := 1
  const BUFFER_RX_EMPTY: int := 0
  const ERROR_HEAD_MESSAGE: int := -1
  const ERROR_LEN_MESSAGE: int := -2
  const ERROR_CKSUM_16: int := -3

  /** A zeroed message buffer. */
  function Blank(): (z: seq<byte>)
    ensures |z| == BUFFER && forall i :: 0 <= i < BUFFER ==> z[i] == 0
  {
    seq(BUFFER, _ => 0)
  }

  // ---- Checksum -------------------------------------------------------------

  function Sum(s: seq<byte>): nat {
    if s == [] then 0 else Sum(s[..|s| - 1]) + s[|s| - 1]
  }

  /** One's complement of the 16-bit byte sum. */
  function Cksum(s: seq<byte>): nat {
    0xFFFF - Sum(s) % 0x1_0000
  }

  method CalcCksum16(buffer: array<byte>, length: nat) returns (cksum: nat)
    requires length <= buffer.Length
    ensures cksum == Cksum(buffer[..length])
  {
    var acc: nat := 0;
    for i := 0 to length
      invariant acc == Sum(buffer[..i]) % 0x1_0000
    {
      assert buffer[..i + 1][..i] == buffer[..i];
      acc := (acc + buffer[i]) % 0x1_0000;
    }
    cksum := 0xFFFF - acc;
  }

  lemma {:induction false} SumOfUpdate(s: seq<byte>, i: nat, x: byte)
    requires i < |s|
    ensures Sum(s[i := x]) == Sum(s) - s[i] + x
  {
    var t := s[i := x];
    if i == |s| - 1 {
      assert t[..|t| - 1] == s[..|s| - 1];
    } else {
      assert t[..|t| - 1] == s[..|s| - 1][i := x];
      SumOfUpdate(s[..|s| - 1], i, x);
    }
  }

  lemma {:induction false} SumBound(s: seq<byte>)
    ensures Sum(s) <= 255 * |s|
  {
    if s != [] {
      SumBound(s[..|s| - 1]);
    }
  }

  function Lo(w: nat): byte { w % 0x100 }

  function Hi(w: nat): byte { w / 0x100 % 0x100 }

  function Word(lo: nat, hi: nat): nat { hi * 0x100 + lo }

  // ---- Sealing --------------------------------------------------------------

  /** A frame as it must be on the wire. */
  predicate IsFrame(f: seq<byte>) {
    && 5 <= |f| <= 127
    && f[0] == START_MSG_0 && f[1] == START_MSG_1
    && f[POS_CRC_LO] == |f| - 2
    && f[|f| - 2] == Lo(Cksum(f[..|f| - 2]))
    && f[|f| - 1] == Hi(Cksum(f[..|f| - 2]))
  }

  /** What Write_Message leaves in the transmit buffer. */
  function Sealed(b: seq<byte>): (r: seq<byte>)
    requires |b| == BUFFER && b[POS_CRC_LO] <= 126
    ensures |r| == BUFFER
  {
    var h := b[0 := START_MSG_0][1 := START_MSG_1];
    var p: nat := b[POS_CRC_LO];
    h[p := Lo(Cksum(h[..p]))][p + 1 := Hi(Cksum(h[..p]))]
  }

  /** What Write_Message hands to the UART driver: p + 2 bytes, the count cut to 7 bits. */
  function Transmitted(b: seq<byte>): seq<byte>
    requires |b| == BUFFER && b[POS_CRC_LO] <= 126
  {
    Sealed(b)[..(b[POS_CRC_LO] + 2) % 0x80]
  }

  method WriteMessage(buff: array<byte>) returns (wire: seq<byte>)
    requires buff.Length == BUFFER && buff[POS_CRC_LO] <= 126
    modifies buff
    ensures buff[..] == Sealed(old(buff[..]))
    ensures wire == Transmitted(old(buff[..]))
  {
    ghost var was: seq<byte> := buff[..];
    buff[0] := START_MSG_0;
    buff[1] := START_MSG_1;
    var len := (buff[POS_CRC_LO] + 2) % 0x80;
    assert buff[..] == was[0 := START_MSG_0][1 := START_MSG_1];
    var cksum := CalcCksum16(buff, buff[POS_CRC_LO]);
    var i := buff[POS_CRC_LO];
    buff[i] := Lo(cksum);
    buff[i + 1] := Hi(cksum);
    wire := buff[..len];
  }

  /** Sealing yields a frame around the caller's bytes for every checksum position 3..125. */
  lemma SealedIsFrame(b: seq<byte>)
    requires |b| == BUFFER && 3 <= b[POS_CRC_LO] <= 125
    ensures IsFrame(Transmitted(b))
    ensures |Transmitted(b)| == b[POS_CRC_LO] + 2
    ensures Transmitted(b)[3..b[POS_CRC_LO]] == b[3..b[POS_CRC_LO]]
  {
    var p: nat := b[POS_CRC_LO];
    var h := b[0 := START_MSG_0][1 := START_MSG_1];
    var f := Transmitted(b);
    assert f[..p] == h[..p];
  }

  // ---- Checking -------------------------------------------------------------

  /** A C string: the bytes before the first zero. */
  function CString(b: seq<byte>): (s: seq<byte>)
    ensures |s| <= |b| && s == b[..|s|]
  {
    if b == [] || b[0] == 0 then [] else [b[0]] + CString(b[1..])
  }

  predicate At(s: seq<byte>, t: seq<byte>, i: nat)
    requires i + |t| <= |s|
  {
    s[i..i + |t|] == t
  }

  /** strstr(s, t) != NULL. */
  predicate Contains(s: seq<byte>, t: seq<byte>) {
    exists i {:trigger At(s, t, i)} :: 0 <= i <= |s| - |t| && At(s, t, i)
  }

  const BOOTLOADER: seq<byte> := [66, 111, 111, 116, 108, 111, 97, 100, 101, 114]
  const ACK: seq<byte> := [65, 67, 75]

  predicate HasToken(buf: seq<byte>) {
    Contains(CString(buf), BOOTLOADER) || Contains(CString(buf), ACK)
  }

  /** Header, length and checksum tests on the receive buffer, in the code's order. */
  function Verify(buf: seq<byte>, len: nat): int
    requires |buf| == BUFFER && len < BUFFER
  {
    var i: nat := buf[POS_CRC_LO];
    if buf[0] != START_MSG_0 || buf[1] != START_MSG_1 then ERROR_HEAD_MESSAGE
    else if i + 2 != len || len <= START_DATA then ERROR_LEN_MESSAGE
    else if Word(buf[i], buf[i + 1]) != Cksum(buf[..i]) then ERROR_CKSUM_16
    else len
  }

  /** What Read_Message returns for a drained burst: a burst with a token skips the tests. */
  function Judge(buf: seq<byte>, len: nat): int
    requires |buf| == BUFFER && len < BUFFER
  {
    if HasToken(buf) then len else Verify(buf, len)
  }

  /** A burst as it lies in the zeroed receive buffer. */
  function Padded(f: seq<byte>): (b: seq<byte>)
    requires |f| <= BUFFER
    ensures |b| == BUFFER && b[..|f|] == f
  {
    f + seq(BUFFER - |f|, _ => 0)
  }

  /** The receive checks accept a token-free burst exactly when it is a frame. */
  lemma VerifyAcceptsFrames(f: seq<byte>)
    requires |f| < BUFFER
    ensures Verify(Padded(f), |f|) == |f| && |f| > 0 <==> IsFrame(f)
    ensures Verify(Padded(f), |f|) in {|f|, ERROR_HEAD_MESSAGE, ERROR_LEN_MESSAGE, ERROR_CKSUM_16}
  {
    var b := Padded(f);
    if |f| >= 5 {
      var i := |f| - 2;
      assert b[..i] == f[..i];
      assert b[i] == f[i] && b[i + 1] == f[i + 1];
      SplitWord(Cksum(f[..i]), b[i], b[i + 1]);
    }
  }

  lemma SplitWord(w: nat, lo: byte, hi: byte)
    requires w <= 0xFFFF
    ensures Word(lo, hi) == w <==> lo == Lo(w) && hi == Hi(w)
  {
  }

  /** A frame's last two bytes spell its checksum, so equal trailers mean equal checksums. */
  lemma TrailerIsCksum(f: seq<byte>)
    requires IsFrame(f)
    ensures Word(f[|f| - 2], f[|f| - 1]) == Cksum(f[..|f| - 2])
  {
    SplitWord(Cksum(f[..|f| - 2]), f[|f| - 2], f[|f| - 1]);
  }

  /** On a frame the byte sum stays below 65536, so the checksum tells apart bodies that differ
      in one byte. */
  lemma CksumSeesByte(s: seq<byte>, j: nat, x: byte)
    requires |s| <= 127 && j < |s| && x != s[j]
    ensures Cksum(s[j := x]) != Cksum(s)
  {
    SumOfUpdate(s, j, x);
    SumBound(s);
    SumBound(s[j := x]);
  }

  /** Changing one byte of a frame, to any other value and at any place, always leaves something
      that is no frame: the header, the length or the checksum test catches it. */
  lemma OneByteChanged(f: seq<byte>, j: nat, x: byte)
    requires IsFrame(f) && j < |f| && x != f[j]
    ensures !IsFrame(f[j := x])
  {
    var g := f[j := x];
    var p := |f| - 2;
    TrailerIsCksum(f);
    if j >= p {
      assert g[..p] == f[..p];
    } else {
      assert g[..p] == f[..p][j := x];
      CksumSeesByte(f[..p], j, x);
    }
    if IsFrame(g) {
      TrailerIsCksum(g);
    }
  }

  /** Single-byte corruption is reported by a negative code, unless the corrupted burst reads as
      containing one of the two unchecked tokens. */
  lemma CorruptionDetected(f: seq<byte>, j: nat, x: byte)
    requires IsFrame(f) && j < |f| && x != f[j]
    ensures Judge(Padded(f[j := x]), |f|) < 0 <==> !HasToken(Padded(f[j := x]))
  {
    OneByteChanged(f, j, x);
    VerifyAcceptsFrames(f[j := x]);
  }
}
