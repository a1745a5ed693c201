/** The firmware transfer to the unit's bootloader: a 14-character header, then
    one block of at most 16 file bytes for every acknowledgement, each 32-bit
    word written as eight digits '0'..'?' (48 + nibble), high nibble first. */
module Bootloader {
  import opened Layout

  const ZERO: byte := 48
  const BLOCK: nat := 16
  const HEADER: nat := 14

  // ---- Digits ---------------------------------------------------------------

  /** The low n nibbles of w, most significant first. */
  function Digits(w: nat, n: nat): (s: seq<byte>)
    ensures |s| == n
  {
    if n == 0 then [] else Digits(w / 16, n - 1) + [w % 16 + ZERO as int]
  }

  /** The receiver's reading of a digit string. */
  function Value(s: seq<byte>): int {
    if s == [] then 0 else Value(s[..|s| - 1]) * 16 + (s[|s| - 1] - ZERO as int)
  }

  function Power16(n: nat): (m: nat)
    ensures m > 0
  {
    if n == 0 then 1 else 16 * Power16(n - 1)
  }

  /** Reading n digits gives back the number modulo 16^n: exact for every number that fits. */
  lemma {:induction false} ValueOfDigits(w: nat, n: nat)
    ensures Value(Digits(w, n)) == w % Power16(n)
  {
    if n > 0 {
      ValueOfDigits(w / 16, n - 1);
      assert Digits(w, n)[..n - 1] == Digits(w / 16, n - 1);
      KeepLow(w, Power16(n - 1));
    }
  }

  lemma KeepLow(w: nat, m: nat)
    requires m > 0
    ensures (w / 16 % m) * 16 + w % 16 == w % (16 * m)
  {
    var v := w / 16;
    var q, r := v / m, v % m;
    assert v == m * q + r;
    assert 16 * v == (16 * m) * q + 16 * r;
    Remainder(w, 16 * m, q, 16 * r + w % 16);
  }

  lemma Remainder(a: nat, m: nat, q: nat, r: nat)
    requires a == m * q + r && r < m
    ensures a % m == r && a / m == q
  {
    var d: int := a / m - q;
    assert d * m == r - a % m;
    assert d >= 1 ==> d * m >= m;
    assert d <= -1 ==> d * m + m <= 0;
  }

  // ---- Words ----------------------------------------------------------------

  /** A 32-bit word as the little-endian memory of the firmware image holds it. */
  function Word32(b: seq<byte>): nat
    requires |b| == 4
  {
    b[0] + 0x100 * (b[1] + 0x100 * (b[2] + 0x100 * (b[3] as nat)))
  }

  function Memory32(w: nat): (b: seq<byte>)
    ensures |b| == 4
  {
    [w % 0x100, w / 0x100 % 0x100, w / 0x100 / 0x100 % 0x100, w / 0x100 / 0x100 / 0x100 % 0x100]
  }

  lemma LowByte(x: byte, y: nat)
    ensures (x + 0x100 * y) % 0x100 == x && (x + 0x100 * y) / 0x100 == y
  {
  }

  lemma MemoryOfWord(b: seq<byte>)
    requires |b| == 4
    ensures Memory32(Word32(b)) == b && Word32(b) < 0x1_0000_0000
  {
    var b1: nat, b2: nat, b3: nat := b[1], b[2], b[3];
    LowByte(b[0], b1 + 0x100 * (b2 + 0x100 * b3));
    LowByte(b[1], b2 + 0x100 * b3);
    LowByte(b[2], b3);
    LowByte(b[3], 0);
  }

  /** The eight characters the code writes for one word: byte 3 first, each byte high nibble first. */
  function WordChars(b: seq<byte>): (s: seq<byte>)
    requires |b| == 4
    ensures |s| == 8
  {
    [b[3] / 16 + ZERO as int, b[3] % 16 + ZERO as int, b[2] / 16 + ZERO as int, b[2] % 16 + ZERO as int,
     b[1] / 16 + ZERO as int, b[1] % 16 + ZERO as int, b[0] / 16 + ZERO as int, b[0] % 16 + ZERO as int]
  }

  function ByteChars(x: byte): seq<byte> {
    [x / 16 + ZERO as int, x % 16 + ZERO as int]
  }

  lemma ValueOfByteChars(s: seq<byte>, x: byte)
    ensures Value(s + ByteChars(x)) == Value(s) * 0x100 + x
  {
    var t := s + ByteChars(x);
    assert t[..|t| - 1][..|t| - 2] == s;
    assert t[..|t| - 1] == s + [x / 16 + ZERO as int];
  }

  lemma ValueOfWordChars(b: seq<byte>)
    requires |b| == 4
    ensures Value(WordChars(b)) == Word32(b)
  {
    ValueOfByteChars([], b[3]);
    ValueOfByteChars([] + ByteChars(b[3]), b[2]);
    ValueOfByteChars([] + ByteChars(b[3]) + ByteChars(b[2]), b[1]);
    ValueOfByteChars([] + ByteChars(b[3]) + ByteChars(b[2]) + ByteChars(b[1]), b[0]);
    assert WordChars(b) == [] + ByteChars(b[3]) + ByteChars(b[2]) + ByteChars(b[1]) + ByteChars(b[0]);
  }

  function EncodeWords(d: seq<byte>): (s: seq<byte>)
    ensures |s| == 8 * (|d| / 4)
  {
    if |d| < 4 then [] else WordChars(d[..4]) + EncodeWords(d[4..])
  }

  /** The bootloader's side: eight characters to one little-endian word, a short rest ignored. */
  function DecodeWords(s: seq<byte>): seq<byte> {
    if |s| < 8 || Value(s[..8]) < 0 then [] else Memory32(Value(s[..8])) + DecodeWords(s[8..])
  }

  /** What one acknowledgement sends for the bytes d: two characters per byte, of which the
      characters beyond the last whole word stay NUL. */
  function Block(d: seq<byte>): seq<byte> {
    EncodeWords(d) + seq(2 * (|d| % 4), _ => 0)
  }

  lemma {:induction false} DecodeBlock(d: seq<byte>)
    ensures DecodeWords(Block(d)) == d[..4 * (|d| / 4)]
  {
    if |d| >= 4 {
      var s := Block(d);
      ValueOfWordChars(d[..4]);
      MemoryOfWord(d[..4]);
      assert s[..8] == WordChars(d[..4]);
      assert s[8..] == Block(d[4..]);
      DecodeBlock(d[4..]);
      assert d[..4 * (|d| / 4)] == d[..4] + d[4..][..4 * (|d[4..]| / 4)];
    }
  }

  // ---- The transfer ---------------------------------------------------------

  datatype Transfer = Transfer(
    file: seq<byte>,   // contents behind the handle f
    pos: nat,          // its read position
    size: nat,         // Filesize
    first: nat,        // File_Start
    sent: nat)         // Bytes_Transfered

  const NO_TRANSFER := Transfer([], 0, 0, 0, 0)

  /** What opening and seeking the stored image gives. */
  datatype Medium = Missing | Unseekable | Readable(content: seq<byte>)

  /** The bytes fread can deliver. */
  function Available(x: Transfer, n: nat): (d: seq<byte>)
    ensures |d| <= n
  {
    var from := if x.pos <= |x.file| then x.pos else |x.file|;
    x.file[from..if from + n <= |x.file| then from + n else |x.file|]
  }

  /** fread of n bytes into the zeroed Temp_Buffer. */
  function Take(x: Transfer, n: nat): (d: seq<byte>)
    ensures |d| == n
  {
    var d := Available(x, n);
    d + seq(n - |d|, _ => 0)
  }

  /** fread into File_Start: a file shorter than a word leaves its upper bytes as they were. */
  function ReadFirst(first: nat, content: seq<byte>): nat {
    if |content| >= 4 then Word32(content[..4])
    else Word32(content + Memory32(first)[|content|..])
  }

  function Header(size: nat, first: nat): (s: seq<byte>)
    ensures |s| == HEADER
  {
    Digits(size, 6) + Digits(first, 8)
  }

  /** Bootloader_State: the new transfer and the header sent. */
  function Begin(x: Transfer, m: Medium): (Transfer, seq<byte>) {
    if m.Readable? then
      var first := ReadFirst(x.first, m.content);
      (x.(file := m.content, pos := 0, size := |m.content|, first := first), Header(|m.content|, first))
    else (x.(size := 0), Header(0, 0))
  }

  /** Bootloader_State1 once an ACK has come: the new transfer, the characters sent, and whether
      that was the last block. */
  function OnAck(x: Transfer): (Transfer, seq<byte>, bool) {
    if x.size - x.sent > BLOCK then (x.(pos := x.pos + BLOCK, sent := x.sent + BLOCK), Block(Take(x, BLOCK)), false)
    else if x.size > x.sent then (x, Block(Take(x, x.size - x.sent)), true)
    else (x, [], false)
  }

  /** All blocks still to come, one per acknowledgement. */
  function Blocks(x: Transfer): seq<seq<byte>>
    decreases x.size - x.sent
  {
    var (y, chars, last) := OnAck(x);
    if chars == [] then [] else if last then [chars] else [chars] + Blocks(y)
  }

  function DecodeAll(blocks: seq<seq<byte>>): seq<byte> {
    if blocks == [] then [] else DecodeWords(blocks[0]) + DecodeAll(blocks[1..])
  }

  /** The rest of the file, in step with the count of bytes already sent. */
  predicate InStep(x: Transfer) {
    x.pos == x.sent && x.sent <= x.size == |x.file|
  }

  /** The file bytes behind the blocks still to come. */
  function Chunks(x: Transfer): seq<seq<byte>>
    requires InStep(x)
    decreases x.size - x.sent
  {
    if x.size - x.sent > BLOCK then
      [x.file[x.sent..x.sent + BLOCK]] + Chunks(x.(pos := x.pos + BLOCK, sent := x.sent + BLOCK))
    else if x.size > x.sent then [x.file[x.sent..]]
    else []
  }

  function EncodeAll(chunks: seq<seq<byte>>): seq<seq<byte>> {
    if chunks == [] then [] else [Block(chunks[0])] + EncodeAll(chunks[1..])
  }

  /** The whole words of d. */
  function Whole(d: seq<byte>): seq<byte> {
    d[..|d| - |d| % 4]
  }

  function Joined(chunks: seq<seq<byte>>): seq<byte> {
    if chunks == [] then [] else Whole(chunks[0]) + Joined(chunks[1..])
  }

  lemma {:induction false} BlocksEncodeChunks(x: Transfer)
    requires InStep(x)
    ensures Blocks(x) == EncodeAll(Chunks(x))
    decreases x.size - x.sent
  {
    var n := x.size - x.sent;
    if n > 0 {
      var d := if n > BLOCK then x.file[x.sent..x.sent + BLOCK] else x.file[x.sent..];
      assert Take(x, if n > BLOCK then BLOCK else n) == d;
      assert |Block(d)| == 8 * (|d| / 4) + 2 * (|d| % 4) > 0;
      assert Chunks(x)[0] == d;
    }
    if n > BLOCK {
      BlocksEncodeChunks(OnAck(x).0);
      assert Chunks(x)[1..] == Chunks(OnAck(x).0);
    }
  }

  lemma {:induction false} DecodeEncoded(chunks: seq<seq<byte>>)
    ensures DecodeAll(EncodeAll(chunks)) == Joined(chunks)
  {
    if chunks != [] {
      var d, rest := chunks[0], EncodeAll(chunks[1..]);
      DecodeBlock(d);
      assert 4 * (|d| / 4) == |d| - |d| % 4;
      assert ([Block(d)] + rest)[0] == Block(d) && ([Block(d)] + rest)[1..] == rest;
      DecodeEncoded(chunks[1..]);
    }
  }

  lemma {:induction false} ChunksCoverFile(x: Transfer, end: nat)
    requires InStep(x) && x.sent < x.size && x.sent % 4 == 0 && end == x.size - x.size % 4
    ensures x.sent <= end && Joined(Chunks(x)) == x.file[x.sent..end]
    decreases x.size - x.sent
  {
    if x.size - x.sent > BLOCK {
      var y, d := x.(pos := x.pos + BLOCK, sent := x.sent + BLOCK), x.file[x.sent..x.sent + BLOCK];
      ChunksCoverFile(y, end);
      assert Chunks(x)[0] == d && Chunks(x)[1..] == Chunks(y);
      assert Whole(d) == d;
      assert d + x.file[y.sent..end] == x.file[x.sent..end];
    } else {
      var d := x.file[x.sent..];
      assert Chunks(x)[0] == d && Chunks(x)[1..] == [];
      SameRemainder(x.size, x.sent);
      assert Whole(d) == x.file[x.sent..end];
    }
  }

  lemma SameRemainder(size: nat, sent: nat)
    requires sent <= size && sent % 4 == 0
    ensures (size - sent) % 4 == size % 4 && sent <= size - size % 4
  {
  }

  /** Blocks for n bytes: sixteen at a time, rounded up. */
  function BlockCount(n: nat): nat {
    (n + BLOCK - 1) / BLOCK
  }

  lemma {:induction false} ChunkCount(x: Transfer)
    requires InStep(x) && x.sent < x.size
    ensures |Chunks(x)| == BlockCount(x.size - x.sent)
    decreases x.size - x.sent
  {
    if x.size - x.sent > BLOCK {
      var y := x.(pos := x.pos + BLOCK, sent := x.sent + BLOCK);
      ChunkCount(y);
      assert Chunks(x)[1..] == Chunks(y);
    }
  }

  lemma {:induction false} EncodeAllCount(chunks: seq<seq<byte>>)
    ensures |EncodeAll(chunks)| == |chunks|
  {
    if chunks != [] {
      EncodeAllCount(chunks[1..]);
    }
  }

  /** The bootloader's reading of the two header fields. */
  function SizeIn(header: seq<byte>): int
    requires |header| == HEADER
  {
    Value(header[..6])
  }

  function WordIn(header: seq<byte>): int
    requires |header| == HEADER
  {
    Value(header[6..])
  }

  lemma HeaderRoundTrip(size: nat, first: nat)
    ensures SizeIn(Header(size, first)) == size % 0x100_0000
    ensures WordIn(Header(size, first)) == first % 0x1_0000_0000
  {
    assert Header(size, first)[..6] == Digits(size, 6) && Header(size, first)[6..] == Digits(first, 8);
    ValueOfDigits(size, 6);
    ValueOfDigits(first, 8);
    assert Power16(6) == 16 * 16 * Power16(4) == 0x100_0000;
    assert Power16(8) == 16 * 16 * Power16(6);
  }

  /** Decoding the header gives the image's length modulo 2^24, so its length exactly for every
      image below 2^24 bytes, and its first word. */
  lemma TransferHeader(content: seq<byte>, before: Transfer)
    ensures var header := Begin(before, Readable(content)).1;
            && |header| == HEADER
            && SizeIn(header) == |content| % 0x100_0000
            && (SizeIn(header) == |content| <==> |content| < 0x100_0000)
            && (|content| >= 4 ==> WordIn(header) == Word32(content[..4]))
  {
    var first := ReadFirst(before.first, content);
    assert Begin(before, Readable(content)).1 == Header(|content|, first);
    FirstWord(before.first, content);
    HeaderRoundTrip(|content|, first);
    RemainderIsSelf(|content|, 0x100_0000);
    if |content| >= 4 {
      RemainderIsSelf(first, 0x1_0000_0000);
    }
  }

  lemma RemainderIsSelf(n: nat, m: nat)
    requires m > 0
    ensures n % m == n <==> n < m
  {
  }

  lemma FirstWord(first: nat, content: seq<byte>)
    ensures |content| >= 4 ==> ReadFirst(first, content) == Word32(content[..4]) < 0x1_0000_0000
  {
    if |content| >= 4 {
      MemoryOfWord(content[..4]);
    }
  }

  /** One block answers each ACK, ceil(n / 16) in all, and decoding them gives back every whole word
      of the image: the image itself exactly when its length is a multiple of four. */
  lemma TransferBody(content: seq<byte>, before: Transfer)
    requires before.sent == 0 && content != []
    ensures var blocks := Blocks(Begin(before, Readable(content)).0);
            && |blocks| == BlockCount(|content|)
            && DecodeAll(blocks) == Whole(content)
            && (DecodeAll(blocks) == content <==> |content| % 4 == 0)
  {
    var x := Begin(before, Readable(content)).0;
    BlocksEncodeChunks(x);
    DecodeEncoded(Chunks(x));
    ChunksCoverFile(x, |content| - |content| % 4);
    ChunkCount(x);
    EncodeAllCount(Chunks(x));
  }

  /** With no image to send the bootloader is told the size 0, and no block follows. */
  lemma NothingToSend(before: Transfer, m: Medium)
    requires before.sent == 0 && (m.Readable? ==> m.content == [])
    ensures var (x, header) := Begin(before, m);
            |header| == HEADER && SizeIn(header) == 0 && Blocks(x) == []
  {
    var (x, header) := Begin(before, m);
    HeaderRoundTrip(0, 0);
    if m.Readable? {
      HeaderRoundTrip(0, x.first);
    }
  }

  lemma {:induction false} EncodeOneMore(d: seq<byte>, w: seq<byte>)
    requires |d| % 4 == 0 && |w| == 4
    ensures EncodeWords(d + w) == EncodeWords(d) + WordChars(w)
  {
    if d == [] {
      assert d + w == w && w[..4] == w && EncodeWords(w[4..]) == [];
    } else {
      assert (d + w)[..4] == d[..4] && (d + w)[4..] == d[4..] + w;
      EncodeOneMore(d[4..], w);
    }
  }

  /** Digit i, as the shift expressions of the code compute it. */
  lemma {:induction false} DigitAt(w: nat, n: nat, i: nat)
    requires i < n
    ensures Digits(w, n)[i] == w / Power16(n - 1 - i) % 16 + ZERO as int
  {
    if i < n - 1 {
      DigitAt(w / 16, n - 1, i);
      DivideTwice(w, Power16(n - 2 - i));
    }
  }

  lemma DivideTwice(w: nat, m: nat)
    requires m > 0
    ensures w / 16 / m == w / (16 * m)
  {
    var v := w / 16;
    assert 16 * v == (16 * m) * (v / m) + 16 * (v % m);
    Remainder(w, 16 * m, v / m, 16 * (v % m) + w % 16);
  }

  class BootTransfer {
    var file: seq<byte>
    var pos: nat
    var filesize: nat
    var fileStart: nat
    var bytesTransfered: nat
    const sendBuffer: array<byte>
    const tempBuffer: array<byte>

    ghost predicate Valid() {
      sendBuffer.Length == 100 && tempBuffer.Length == 20 && sendBuffer != tempBuffer
    }

    function View(): Transfer
      reads this
    {
      Transfer(file, pos, filesize, fileStart, bytesTransfered)
    }

    constructor ()
      ensures Valid() && View() == NO_TRANSFER && fresh(sendBuffer) && fresh(tempBuffer)
    {
      file, pos, filesize, fileStart, bytesTransfered := [], 0, 0, 0, 0;
      sendBuffer := new byte[100];
      tempBuffer := new byte[20];
    }

    method ClearSendBuffer(with: byte)
      requires Valid()
      modifies sendBuffer
      ensures sendBuffer[..] == seq(100, _ => with)
    {
      forall i | 0 <= i < 100 {
        sendBuffer[i] := with;
      }
    }

    method PutSize(w: nat)
      requires Valid()
      modifies sendBuffer
      ensures sendBuffer[..] == Digits(w, 6) + old(sendBuffer[6..])
    {
      sendBuffer[0] := w / 0x10_0000 % 16 + ZERO as int;
      sendBuffer[1] := w / 0x1_0000 % 16 + ZERO as int;
      sendBuffer[2] := w / 0x1000 % 16 + ZERO as int;
      sendBuffer[3] := w / 0x100 % 16 + ZERO as int;
      sendBuffer[4] := w / 0x10 % 16 + ZERO as int;
      sendBuffer[5] := w % 16 + ZERO as int;
      SizeShifts(w);
    }

    method PutFirstWord(w: nat)
      requires Valid()
      modifies sendBuffer
      ensures sendBuffer[..] == old(sendBuffer[..6]) + Digits(w, 8) + old(sendBuffer[14..])
    {
      var digits: seq<byte> := [
        w / 0x1000_0000 % 16 + ZERO as int, w / 0x100_0000 % 16 + ZERO as int, w / 0x10_0000 % 16 + ZERO as int,
        w / 0x1_0000 % 16 + ZERO as int, w / 0x1000 % 16 + ZERO as int, w / 0x100 % 16 + ZERO as int,
        w / 0x10 % 16 + ZERO as int, w % 16 + ZERO as int];
      forall j | 0 <= j < 8 {
        sendBuffer[6 + j] := digits[j];
      }
      WordShifts(w);
    }

    /** The Bootloader_State case: open the image and announce it. */
    method Announce(m: Medium) returns (wire: seq<byte>)
      requires Valid()
      modifies this`file, this`pos, this`filesize, this`fileStart, sendBuffer
      ensures (View(), wire) == Begin(old(View()), m)
    {
      if m.Readable? {
        file := m.content;
        filesize := |file|;
        ClearSendBuffer(0);
        PutSize(filesize);
        fileStart := ReadFirst(fileStart, file);
        PutFirstWord(fileStart);
        pos := 0;
        wire := sendBuffer[..HEADER];
        assert wire == Header(filesize, fileStart);
      } else {
        filesize := 0;
        ClearSendBuffer(ZERO);
        wire := sendBuffer[..HEADER];
        assert wire == seq(HEADER, _ => ZERO);
        NoSize();
      }
    }

    /** The eight characters of file word index1. */
    method PutWord(index1: nat)
      requires Valid() && index1 < 4
      modifies sendBuffer
      ensures sendBuffer[..8 * index1 + 8] == old(sendBuffer[..8 * index1]) + WordChars(tempBuffer[4 * index1..4 * index1 + 4])
      ensures forall j :: 8 * index1 + 8 <= j < 100 ==> sendBuffer[j] == old(sendBuffer[j])
    {
      var chars := WordChars(tempBuffer[4 * index1..4 * index1 + 4]);
      forall j | 0 <= j < 8 {
        sendBuffer[8 * index1 + j] := chars[j];
      }
    }

    /** The Bootloader_State1 case once the ACK flag was seen. */
    method SendNext() returns (wire: seq<byte>, finished: bool)
      requires Valid()
      modifies this`pos, this`bytesTransfered, sendBuffer, tempBuffer
      ensures (View(), wire, finished) == OnAck(old(View()))
    {
      ClearSendBuffer(0);
      wire, finished := [], false;
      if filesize - bytesTransfered > BLOCK {
        wire := SendBlock(BLOCK);
        pos := pos + BLOCK;
        bytesTransfered := bytesTransfered + BLOCK;
      } else if filesize > bytesTransfered {
        wire := SendBlock(filesize - bytesTransfered);
        finished := true;
      }
    }

    /** Reads n bytes into the cleared Temp_Buffer. */
    method ReadTemp(n: nat)
      requires Valid() && n <= BLOCK
      modifies tempBuffer
      ensures tempBuffer[..n] == Take(View(), n)
    {
      forall i | 0 <= i < 20 {
        tempBuffer[i] := 0;
      }
      var got := Available(View(), n);
      forall i | 0 <= i < |got| {
        tempBuffer[i] := got[i];
      }
    }

    /** Writes two characters for each of the n bytes read, word by word. */
    method SendBlock(n: nat) returns (wire: seq<byte>)
      requires Valid() && 0 < n <= BLOCK && sendBuffer[..] == seq(100, _ => 0)
      modifies sendBuffer, tempBuffer
      ensures wire == Block(Take(View(), n))
    {
      ReadTemp(n);
      EncodeTemp(n);
      wire := sendBuffer[..2 * n];
      assert sendBuffer[8 * (n / 4)..2 * n] == seq(2 * (n % 4), _ => 0);
      assert wire == sendBuffer[..8 * (n / 4)] + sendBuffer[8 * (n / 4)..2 * n];
    }

    method EncodeTemp(n: nat)
      requires Valid() && n <= BLOCK && sendBuffer[..] == seq(100, _ => 0)
      modifies sendBuffer
      ensures sendBuffer[..8 * (n / 4)] == EncodeWords(tempBuffer[..n])
      ensures forall j :: 8 * (n / 4) <= j < 100 ==> sendBuffer[j] == 0
    {
      ghost var d: seq<byte> := tempBuffer[..n];
      for index1 := 0 to n / 4
        invariant tempBuffer[..n] == d
        invariant sendBuffer[..8 * index1] == EncodeWords(d[..4 * index1])
        invariant forall j :: 8 * index1 <= j < 100 ==> sendBuffer[j] == 0
      {
        PutWord(index1);
        OneMoreWord(d, index1);
        assert tempBuffer[4 * index1..4 * index1 + 4] == d[4 * index1..4 * index1 + 4];
      }
      EncodeWhole(d);
    }
  }

  lemma OneMoreWord(d: seq<byte>, i: nat)
    requires 4 * i + 4 <= |d|
    ensures EncodeWords(d[..4 * (i + 1)]) == EncodeWords(d[..4 * i]) + WordChars(d[4 * i..4 * i + 4])
  {
    EncodeOneMore(d[..4 * i], d[4 * i..4 * i + 4]);
    assert d[..4 * i] + d[4 * i..4 * i + 4] == d[..4 * (i + 1)];
  }

  lemma {:induction false} EncodeWhole(d: seq<byte>)
    ensures EncodeWords(d[..4 * (|d| / 4)]) == EncodeWords(d)
  {
    if |d| >= 4 {
      var e := d[..4 * (|d| / 4)];
      assert e[..4] == d[..4] && e[4..] == d[4..][..4 * (|d[4..]| / 4)];
      EncodeWhole(d[4..]);
    }
  }

  lemma NoSize()
    ensures Header(0, 0) == seq(HEADER, _ => ZERO)
  {
    forall i | 0 <= i < 6 ensures Digits(0, 6)[i] == ZERO { DigitAt(0, 6, i); ZeroDigit(Power16(5 - i)); }
    forall i | 0 <= i < 8 ensures Digits(0, 8)[i] == ZERO { DigitAt(0, 8, i); ZeroDigit(Power16(7 - i)); }
  }

  lemma ZeroDigit(m: nat)
    requires m > 0
    ensures 0 / m % 16 == 0
  {
  }

  /** The shifts and masks of the code are the digits of the header. */
  lemma SizeShifts(w: nat)
    ensures Digits(w, 6) == [
              w / 0x10_0000 % 16 + ZERO as int, w / 0x1_0000 % 16 + ZERO as int, w / 0x1000 % 16 + ZERO as int,
              w / 0x100 % 16 + ZERO as int, w / 0x10 % 16 + ZERO as int, w % 16 + ZERO as int]
  {
    Powers();
    DigitAt(w, 6, 0); DigitAt(w, 6, 1); DigitAt(w, 6, 2); DigitAt(w, 6, 3); DigitAt(w, 6, 4); DigitAt(w, 6, 5);
  }

  lemma WordShifts(w: nat)
    ensures Digits(w, 8) == [
              w / 0x1000_0000 % 16 + ZERO as int, w / 0x100_0000 % 16 + ZERO as int, w / 0x10_0000 % 16 + ZERO as int,
              w / 0x1_0000 % 16 + ZERO as int, w / 0x1000 % 16 + ZERO as int, w / 0x100 % 16 + ZERO as int,
              w / 0x10 % 16 + ZERO as int, w % 16 + ZERO as int]
  {
    Powers();
    DigitAt(w, 8, 0); DigitAt(w, 8, 1); DigitAt(w, 8, 2); DigitAt(w, 8, 3); DigitAt(w, 8, 4); DigitAt(w, 8, 5);
    DigitAt(w, 8, 6); DigitAt(w, 8, 7);
  }

  lemma Powers()
    ensures Power16(0) == 1 && Power16(1) == 0x10 && Power16(2) == 0x100 && Power16(3) == 0x1000
    ensures Power16(4) == 0x1_0000 && Power16(5) == 0x10_0000 && Power16(6) == 0x100_0000 && Power16(7) == 0x1000_0000
  {
  }
}
