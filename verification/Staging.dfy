/** Staging the unit's firmware from an HTTP download: the first three chunks are
    held back until the version in them is compared with the stored file's; the
    rest is streamed behind them. */
module Staging {
  import opened Layout

  const BUFFER_TEST: nat := 1536
  const VERSION_LO: nat := 1172
  const VERSION_HI: nat := 1173
  const U16: nat := 0x1_0000

  datatype File = Absent | Stored(content: seq<byte>)

  datatype Stage = Stage(
    file: File,           // /spiffs/firmware.bin
    writing: bool,        // File_opened
    loaded: nat,          // Load_Counter
    counted: nat,         // Data_Counter
    version: nat,         // Firmware_version
    buffer: seq<byte>,    // Buffer_Test
    at: nat)              // Pointer - Buffer_Test
  {
    predicate Valid() { |buffer| == BUFFER_TEST && counted < U16 && loaded < 3 && (writing ==> file.Stored?) }
  }

  function Version(buffer: seq<byte>): nat
    requires |buffer| == BUFFER_TEST
  {
    var lo: nat, hi: nat := buffer[VERSION_LO], buffer[VERSION_HI];
    hi * 100 + lo / 16 * 10 + lo % 16
  }

  /** Data laid over a buffer from an offset on; what runs past its end is cut off. */
  function Over(buffer: seq<byte>, at: nat, data: seq<byte>): (r: seq<byte>)
    ensures |r| == |buffer|
  {
    seq(|buffer|, i requires 0 <= i < |buffer| => if at <= i < at + |data| then data[i - at] else buffer[i])
  }

  function Zeros(): (z: seq<byte>)
    ensures |z| == BUFFER_TEST
  {
    seq(BUFFER_TEST, _ => 0)
  }

  /** HTTP_EVENT_ON_CONNECTED; `creates` says whether a new file can be opened. */
  function Connect(s: Stage, creates: bool): Stage
    requires s.Valid()
  {
    match s.file
    case Absent => s.(file := if creates then Stored([]) else Absent, writing := creates, version := 0)
    case Stored(was) => s.(writing := false, version := Version(Over(s.buffer, 0, was)), buffer := Zeros(), at := 0)
  }

  /** HTTP_EVENT_ON_DATA; `reopens` says whether the file can be opened anew after it was removed,
      `behind` is the memory behind Buffer_Test. */
  function Receive(s: Stage, data: seq<byte>, reopens: bool, behind: seq<byte>): Stage
    requires s.Valid() && |behind| >= U16
  {
    if s.version == 0 then
      if s.writing then s.(file := Stored(s.file.content + data)) else s
    else Compare(s.(buffer := Over(s.buffer, s.at, data), at := s.at + |data|,
                    loaded := s.loaded + 1, counted := (s.counted + |data|) % U16), reopens, behind)
  }

  /** The comparison once three chunks are there. */
  function Compare(s: Stage, reopens: bool, behind: seq<byte>): Stage
    requires |s.buffer| == BUFFER_TEST && s.counted < U16 && |behind| >= U16
  {
    if s.loaded != 3 then s
    else if Version(s.buffer) == s.version then s.(loaded := 0, version := 0)
    else if !reopens then s.(file := Absent, writing := false, loaded := 0, version := 0)
    else s.(file := Stored((s.buffer + behind)[..s.counted]), writing := true, loaded := 0, version := 0)
  }

  /** HTTP_EVENT_ON_FINISH. */
  function Finish(s: Stage): Stage {
    if s.writing then s.(writing := false, version := 0) else s
  }

  /** HTTP_EVENT_ERROR: a file that is being written is removed. */
  function Abort(s: Stage): Stage {
    if s.writing then s.(writing := false, loaded := 0, version := 0, file := Absent) else s
  }

  class FirmwareStager {
    var file: File
    var fileOpened: bool
    var loadCounter: nat
    var dataCounter: nat
    var firmwareVersion: nat
    const bufferTest: array<byte>
    var pointer: nat

    function View(): Stage
      reads this, bufferTest
    {
      Stage(file, fileOpened, loadCounter, dataCounter, firmwareVersion, bufferTest[..], pointer)
    }

    ghost predicate Valid()
      reads this, bufferTest
    {
      View().Valid()
    }

    constructor (file: File)
      ensures Valid() && View() == Stage(file, false, 0, 0, 0, Zeros(), 0) && fresh(bufferTest)
    {
      this.file, fileOpened, loadCounter, dataCounter, firmwareVersion, pointer := file, false, 0, 0, 0, 0;
      bufferTest := new byte[BUFFER_TEST](_ => 0);
      new;
      assert bufferTest[..] == Zeros();
    }

    method Overlay(at: nat, data: seq<byte>)
      modifies bufferTest
      ensures bufferTest[..] == Over(old(bufferTest[..]), at, data)
    {
      forall i | at <= i < at + |data| && i < bufferTest.Length {
        bufferTest[i] := data[i - at];
      }
    }

    method OnConnected(creates: bool)
      requires Valid()
      modifies this, bufferTest
      ensures Valid() && View() == Connect(old(View()), creates)
    {
      match file
      case Absent =>
        fileOpened := creates;
        if creates {
          file := Stored([]);
        }
        firmwareVersion := 0;
      case Stored(content) =>
        fileOpened := false;
        Overlay(0, content);
        firmwareVersion := Version(bufferTest[..]);
        forall i | 0 <= i < bufferTest.Length {
          bufferTest[i] := 0;
        }
        assert bufferTest[..] == Zeros();
        pointer := 0;
    }

    method OnData(data: seq<byte>, reopens: bool, behind: seq<byte>)
      requires Valid() && |behind| >= U16
      modifies this, bufferTest
      ensures Valid() && View() == Receive(old(View()), data, reopens, behind)
    {
      if firmwareVersion != 0 {
        if loadCounter < 3 {
          Overlay(pointer, data);
          pointer := pointer + |data|;
          loadCounter := loadCounter + 1;
          dataCounter := (dataCounter + |data|) % U16;
        }
        CompareVersions(reopens, behind);
      } else if fileOpened {
        file := Stored(file.content + data);
      }
    }

    method CompareVersions(reopens: bool, behind: seq<byte>)
      requires bufferTest.Length == BUFFER_TEST && dataCounter < U16 && |behind| >= U16
      modifies this
      ensures View() == Compare(old(View()), reopens, behind)
    {
      if loadCounter == 3 {
        if Version(bufferTest[..]) != firmwareVersion {
          file := Absent;
          fileOpened := reopens;
          if reopens {
            file := Stored((bufferTest[..] + behind)[..dataCounter]);
          }
        }
        loadCounter, firmwareVersion := 0, 0;
      }
    }

    method OnFinish()
      requires Valid()
      modifies this
      ensures Valid() && View() == Finish(old(View()))
    {
      if fileOpened {
        fileOpened := false;
        firmwareVersion := 0;
      }
    }

    method OnError()
      requires Valid()
      modifies this
      ensures Valid() && View() == Abort(old(View()))
    {
      if fileOpened {
        fileOpened, loadCounter, firmwareVersion := false, 0, 0;
        file := Absent;
      }
    }
  }

  // ---- One download ---------------------------------------------------------

  function Concat(chunks: seq<seq<byte>>): seq<byte> {
    if chunks == [] then [] else Concat(chunks[..|chunks| - 1]) + chunks[|chunks| - 1]
  }

  function ReceiveAll(s: Stage, chunks: seq<seq<byte>>, reopens: bool, behind: seq<byte>): (r: Stage)
    requires s.Valid() && |behind| >= U16
    ensures r.Valid()
  {
    if chunks == [] then s else Receive(ReceiveAll(s, chunks[..|chunks| - 1], reopens, behind), chunks[|chunks| - 1], reopens, behind)
  }

  function Download(s: Stage, chunks: seq<seq<byte>>, creates: bool, reopens: bool, behind: seq<byte>): Stage
    requires s.Valid() && |behind| >= U16
  {
    Finish(ReceiveAll(Connect(s, creates), chunks, reopens, behind))
  }

  /** Without a stored file everything is streamed. */
  lemma {:induction false} StreamsAll(s: Stage, chunks: seq<seq<byte>>, reopens: bool, behind: seq<byte>)
    requires s.Valid() && |behind| >= U16 && s.version == 0
    ensures ReceiveAll(s, chunks, reopens, behind) == if s.writing then s.(file := Stored(s.file.content + Concat(chunks))) else s
    decreases |chunks|
  {
    if chunks == [] {
      assert s.writing ==> s.file.content + [] == s.file.content;
    } else {
      var last := |chunks| - 1;
      StreamsAll(s, chunks[..last], reopens, behind);
      assert s.writing ==> s.file.content + Concat(chunks[..last]) + chunks[last] == s.file.content + Concat(chunks);
    }
  }

  /** The buffer once data has been laid into zeros. */
  function Held(data: seq<byte>): (b: seq<byte>)
    ensures |b| == BUFFER_TEST
  {
    Over(Zeros(), 0, data)
  }

  lemma HeldGrows(a: seq<byte>, b: seq<byte>)
    ensures Over(Held(a), |a|, b) == Held(a + b)
  {
  }

  /** The first two chunks are only held back. */
  lemma {:induction false} HoldsBack(s: Stage, chunks: seq<seq<byte>>, reopens: bool, behind: seq<byte>)
    requires s.Valid() && |behind| >= U16 && s.version != 0 && s.loaded == 0 && s.at == 0 && s.buffer == Zeros() && |chunks| < 3
    ensures ReceiveAll(s, chunks, reopens, behind) ==
            s.(buffer := Held(Concat(chunks)), at := |Concat(chunks)|, loaded := |chunks|, counted := (s.counted + |Concat(chunks)|) % U16)
    decreases |chunks|
  {
    if chunks == [] {
      assert Held([]) == Zeros();
    } else {
      var last := |chunks| - 1;
      HoldsBack(s, chunks[..last], reopens, behind);
      HeldGrows(Concat(chunks[..last]), chunks[last]);
      AddModulo(s.counted, |Concat(chunks[..last])|, |chunks[last]|);
    }
  }

  lemma AddModulo(a: nat, b: nat, c: nat)
    ensures ((a + b) % U16 + c) % U16 == (a + (b + c)) % U16
  {
    assert a + b == U16 * ((a + b) / U16) + (a + b) % U16;
    var r := (a + b) % U16 + c;
    assert a + b + c == U16 * ((a + b) / U16 + r / U16) + r % U16;
    Remains(a + b + c, (a + b) / U16 + r / U16, r % U16);
  }

  lemma Remains(x: nat, q: nat, r: nat)
    requires x == U16 * q + r && r < U16
    ensures x % U16 == r
  {
  }

  /** The third decides. */
  lemma ThirdDecides(s: Stage, chunks: seq<seq<byte>>, reopens: bool, behind: seq<byte>)
    requires s.Valid() && |behind| >= U16 && s.version != 0 && s.loaded == 0 && s.at == 0 && s.buffer == Zeros() && |chunks| == 3
    ensures var head := Concat(chunks);
            ReceiveAll(s, chunks, reopens, behind) ==
              Compare(s.(buffer := Held(head), at := |head|, loaded := 3, counted := (s.counted + |head|) % U16), reopens, behind)
  {
    HoldsBack(s, chunks[..2], reopens, behind);
    HeldGrows(Concat(chunks[..2]), chunks[2]);
    AddModulo(s.counted, |Concat(chunks[..2])|, |chunks[2]|);
  }

  lemma {:induction false} ReceiveInTwo(s: Stage, a: seq<seq<byte>>, b: seq<seq<byte>>, reopens: bool, behind: seq<byte>)
    requires s.Valid() && |behind| >= U16
    ensures ReceiveAll(s, a + b, reopens, behind) == ReceiveAll(ReceiveAll(s, a, reopens, behind), b, reopens, behind)
    decreases |b|
  {
    if b == [] {
      assert a + b == a;
    } else {
      var last := |b| - 1;
      assert (a + b)[..|a + b| - 1] == a + b[..last] && (a + b)[|a + b| - 1] == b[last];
      ReceiveInTwo(s, a, b[..last], reopens, behind);
    }
  }

  lemma {:induction false} ConcatInTwo(a: seq<seq<byte>>, b: seq<seq<byte>>)
    ensures Concat(a + b) == Concat(a) + Concat(b)
    decreases |b|
  {
    if b == [] {
      assert a + b == a;
    } else {
      var last := |b| - 1;
      assert (a + b)[..|a + b| - 1] == a + b[..last] && (a + b)[|a + b| - 1] == b[last];
      ConcatInTwo(a, b[..last]);
    }
  }

  /** From three chunks on: the comparison, then the rest streamed behind it if the file was opened. */
  lemma DecidesThenStreams(s: Stage, chunks: seq<seq<byte>>, reopens: bool, behind: seq<byte>)
    requires s.Valid() && |behind| >= U16 && s.version != 0 && s.loaded == 0 && s.at == 0 && s.buffer == Zeros() && |chunks| >= 3
    ensures var head := Concat(chunks[..3]);
            var d := Compare(s.(buffer := Held(head), at := |head|, loaded := 3, counted := (s.counted + |head|) % U16), reopens, behind);
            && (d.writing ==> d.file.Stored?)
            && ReceiveAll(s, chunks, reopens, behind) == if d.writing then d.(file := Stored(d.file.content + Concat(chunks[3..]))) else d
  {
    ReceiveInTwo(s, chunks[..3], chunks[3..], reopens, behind);
    assert chunks[..3] + chunks[3..] == chunks;
    ThirdDecides(s, chunks[..3], reopens, behind);
    StreamsAll(ReceiveAll(s, chunks[..3], reopens, behind), chunks[3..], reopens, behind);
  }

  /** What the stored file's version is taken to be when the download starts. */
  function StoredVersion(s: Stage): nat
    requires s.Valid() && s.file.Stored?
  {
    Version(Over(s.buffer, 0, s.file.content))
  }

  /** The download gets as far as replacing the stored file. */
  predicate Replaces(s: Stage, chunks: seq<seq<byte>>)
    requires s.Valid() && s.file.Stored?
  {
    StoredVersion(s) != 0 && |chunks| >= 3 && Version(Held(Concat(chunks[..3]))) != StoredVersion(s)
  }

  /** A comparing download, whatever the counter held before: the stored file stays unless all three
      first chunks came and their version differs; then it is replaced, by as many bytes from the
      buffer on as the counter says and the later chunks. */
  lemma ComparingDownload(s: Stage, chunks: seq<seq<byte>>, creates: bool, reopens: bool, behind: seq<byte>)
    requires s.Valid() && |behind| >= U16 && s.file.Stored? && s.loaded == 0
    ensures Download(s, chunks, creates, reopens, behind).file ==
            if !Replaces(s, chunks) then s.file
            else if !reopens then Absent
            else
              var head := Concat(chunks[..3]);
              Stored((Held(head) + behind)[..(s.counted + |head|) % U16] + Concat(chunks[3..]))
  {
    var c := Connect(s, creates);
    if c.version == 0 {
      StreamsAll(c, chunks, reopens, behind);
    } else if |chunks| < 3 {
      HoldsBack(c, chunks, reopens, behind);
    } else {
      DecidesThenStreams(c, chunks, reopens, behind);
    }
  }

  // ---- The version bytes ----------------------------------------------------

  /** Two decimal digits. */
  predicate Decimal(x: byte) { x / 16 < 10 && x % 16 < 10 }

  /** Byte 1173 counts the hundreds; byte 1172 holds two decimal digits. */
  lemma VersionReads(buffer: seq<byte>, a: nat, b: nat)
    requires |buffer| == BUFFER_TEST && a < 10 && b < 10 && buffer[1172] == 16 * a + b
    ensures Version(buffer) == 100 * buffer[1173] + 10 * a + b
  {
  }

  /** With decimal digits in byte 1172 the versions are the same exactly if the two bytes are. */
  lemma SameVersion(p: seq<byte>, q: seq<byte>)
    requires |p| == |q| == BUFFER_TEST && Decimal(p[1172]) && Decimal(q[1172])
    ensures Version(p) == Version(q) <==> p[1172] == q[1172] && p[1173] == q[1173]
  {
    VersionReads(p, p[1172] / 16, p[1172] % 16);
    VersionReads(q, q[1172] / 16, q[1172] % 16);
    Hundreds(p[1173], p[1172] / 16, p[1172] % 16, q[1173], q[1172] / 16, q[1172] % 16);
  }

  lemma Hundreds(h: nat, a: nat, b: nat, i: nat, c: nat, d: nat)
    requires a < 10 && b < 10 && c < 10 && d < 10
    ensures 100 * h + 10 * a + b == 100 * i + 10 * c + d <==> h == i && a == c && b == d
  {
  }

  /** Without, they need not be: hundreds can hide in the digit before the last, and tens in the last. */
  lemma VersionsCollide()
    ensures var p, q := Zeros()[1173 := 1], Zeros()[1172 := 0xA0]; Version(p) == Version(q) == 100
    ensures var p, q := Zeros()[1172 := 0x10], Zeros()[1172 := 0x0A]; Version(p) == Version(q) == 10
  {
  }

  /** Version 0, which stands for no comparison, is both bytes 0. */
  lemma NoVersion(buffer: seq<byte>)
    requires |buffer| == BUFFER_TEST
    ensures Version(buffer) == 0 <==> buffer[1172] == 0 && buffer[1173] == 0
  {
  }

  /** The stored file's byte i; where the file ends before it, what Buffer_Test held. */
  function StoredByte(s: Stage, i: nat): byte
    requires s.Valid() && s.file.Stored? && i < BUFFER_TEST
  {
    if i < |s.file.content| then s.file.content[i] else s.buffer[i]
  }

  /** The download's byte i, if its first three chunks reach so far. */
  function LoadedByte(chunks: seq<seq<byte>>, i: nat): byte
    requires |chunks| >= 3
  {
    var head := chunks[0] + chunks[1] + chunks[2];
    if i < |head| then head[i] else 0
  }

  lemma ConcatOne(chunk: seq<byte>)
    ensures Concat([chunk]) == chunk
  {
    assert Concat([chunk]) == Concat([]) + chunk;
  }

  lemma FirstThree(chunks: seq<seq<byte>>)
    requires |chunks| >= 3
    ensures Concat(chunks[..3]) == chunks[0] + chunks[1] + chunks[2]
  {
    var c := chunks[..3];
    assert c[..2] == [c[0], c[1]] && c[..2][..1] == [c[0]];
    ConcatInTwo([c[0]], [c[1]]);
    ConcatOne(c[0]);
    ConcatOne(c[1]);
    assert [c[0]] + [c[1]] == [c[0], c[1]];
  }

  /** When a download replaces the stored file, on the bytes 1172 and 1173 of both: not if the stored
      ones are 0, nor before three chunks came, nor if the new ones are the same; otherwise always. */
  lemma ReplacesExactly(s: Stage, chunks: seq<seq<byte>>)
    requires s.Valid() && s.file.Stored? && Decimal(StoredByte(s, 1172))
    requires |chunks| >= 3 ==> Decimal(LoadedByte(chunks, 1172))
    ensures Replaces(s, chunks) <==>
              && (StoredByte(s, 1172) != 0 || StoredByte(s, 1173) != 0)
              && |chunks| >= 3
              && (LoadedByte(chunks, 1172) != StoredByte(s, 1172) || LoadedByte(chunks, 1173) != StoredByte(s, 1173))
  {
    var was := Over(s.buffer, 0, s.file.content);
    NoVersion(was);
    if |chunks| >= 3 {
      FirstThree(chunks);
      SameVersion(Held(Concat(chunks[..3])), was);
    }
  }

  /** A download over an image with decimal version digits, the counter 0 as after start-up: the new file
      is stored, whole, exactly if byte 1172 or 1173 of it is not the stored one's. */
  lemma NewVersionIsStored(s: Stage, chunks: seq<seq<byte>>, creates: bool, behind: seq<byte>)
    requires s.Valid() && |behind| >= U16 && s.file.Stored? && s.loaded == 0 && s.counted == 0
    requires |chunks| >= 3 && |chunks[0] + chunks[1] + chunks[2]| <= BUFFER_TEST
    requires Decimal(StoredByte(s, 1172)) && Decimal(LoadedByte(chunks, 1172))
    requires StoredByte(s, 1172) != 0 || StoredByte(s, 1173) != 0
    ensures Download(s, chunks, creates, true, behind).file ==
            if LoadedByte(chunks, 1172) == StoredByte(s, 1172) && LoadedByte(chunks, 1173) == StoredByte(s, 1173)
            then s.file else Stored(Concat(chunks))
  {
    FirstThree(chunks);
    ReplacesExactly(s, chunks);
    NeverAMixture(s, chunks, creates, true, behind);
  }

  /** Never a mixture: the first comparing download after start-up, its first three chunks fitting the
      buffer, leaves the old file or exactly the new one, or none if the new one cannot be opened. */
  lemma NeverAMixture(s: Stage, chunks: seq<seq<byte>>, creates: bool, reopens: bool, behind: seq<byte>)
    requires s.Valid() && |behind| >= U16 && s.file.Stored? && s.loaded == 0 && s.counted == 0
    requires |chunks| >= 3 ==> |Concat(chunks[..3])| <= BUFFER_TEST
    ensures Download(s, chunks, creates, reopens, behind).file ==
            if !Replaces(s, chunks) then s.file else if reopens then Stored(Concat(chunks)) else Absent
  {
    ComparingDownload(s, chunks, creates, reopens, behind);
    if |chunks| >= 3 {
      var head := Concat(chunks[..3]);
      ConcatInTwo(chunks[..3], chunks[3..]);
      assert chunks[..3] + chunks[3..] == chunks;
      assert (Held(head) + behind)[..|head|] == head;
    }
  }

  /** The counter is never set back.  A download that replaces the file stores exactly what it
      received if and only if the counter was 0 when it began. */
  lemma ExactlyIfCounterZero(s: Stage, chunks: seq<seq<byte>>, creates: bool, behind: seq<byte>)
    requires s.Valid() && |behind| >= U16 && s.file.Stored? && s.loaded == 0 && Replaces(s, chunks)
    requires |Concat(chunks[..3])| <= BUFFER_TEST
    ensures Download(s, chunks, creates, true, behind).file == Stored(Concat(chunks)) <==> s.counted == 0
  {
    ComparingDownload(s, chunks, creates, true, behind);
    NeverAMixtureLength(s, chunks, behind);
    if s.counted == 0 {
      NeverAMixture(s, chunks, creates, true, behind);
    }
  }

  lemma NeverAMixtureLength(s: Stage, chunks: seq<seq<byte>>, behind: seq<byte>)
    requires s.Valid() && |behind| >= U16 && |chunks| >= 3 && |Concat(chunks[..3])| <= BUFFER_TEST
    ensures var head := Concat(chunks[..3]);
            s.counted != 0 ==> |(Held(head) + behind)[..(s.counted + |head|) % U16] + Concat(chunks[3..])| != |Concat(chunks)|
  {
    var head := Concat(chunks[..3]);
    ConcatInTwo(chunks[..3], chunks[3..]);
    assert chunks[..3] + chunks[3..] == chunks;
    assert |Concat(chunks)| == |head| + |Concat(chunks[3..])|;
    if s.counted != 0 {
      OffTheMark(s.counted, |head|);
    }
  }

  lemma OffTheMark(counted: nat, n: nat)
    requires 0 < counted < U16 && n < U16
    ensures (counted + n) % U16 != n
  {
    if counted + n >= U16 {
      Remains(counted + n, 1, counted + n - U16);
    }
  }

  /** With no file stored the download is stored as it comes, if a file can be created. */
  lemma FirstDownload(s: Stage, chunks: seq<seq<byte>>, creates: bool, reopens: bool, behind: seq<byte>)
    requires s.Valid() && |behind| >= U16 && s.file == Absent && !s.writing
    ensures Download(s, chunks, creates, reopens, behind).file == if creates then Stored(Concat(chunks)) else Absent
  {
    StreamsAll(Connect(s, creates), chunks, reopens, behind);
    assert [] + Concat(chunks) == Concat(chunks);
  }

  /** A download that breaks off never leaves part of a file: the stored file is as it was, unless its
      replacement had begun, and then there is none, as there is none where a first download had
      begun.  But a comparison that had not come to its end stays begun: the next download then takes
      fewer chunks for the first three. */
  lemma AbortedDownload(s: Stage, chunks: seq<seq<byte>>, creates: bool, reopens: bool, behind: seq<byte>)
    requires s.Valid() && |behind| >= U16 && s.loaded == 0 && !s.writing
    ensures var after := Abort(ReceiveAll(Connect(s, creates), chunks, reopens, behind));
            && after.file == (if s.file.Stored? && !Replaces(s, chunks) then s.file else Absent)
            && !after.writing
            && after.loaded == (if s.file.Stored? && StoredVersion(s) != 0 && |chunks| < 3 then |chunks| else 0)
  {
    var c := Connect(s, creates);
    if c.version == 0 {
      StreamsAll(c, chunks, reopens, behind);
    } else if |chunks| < 3 {
      HoldsBack(c, chunks, reopens, behind);
    } else {
      DecidesThenStreams(c, chunks, reopens, behind);
    }
  }

  /** So after one comparing download of three or more chunks that are not all empty, the counter is
      off for the next. */
  lemma CounterStays(s: Stage, chunks: seq<seq<byte>>, creates: bool, reopens: bool, behind: seq<byte>)
    requires s.Valid() && |behind| >= U16 && s.file.Stored? && s.loaded == 0 && s.counted == 0
    requires StoredVersion(s) != 0 && |chunks| >= 3 && 0 < |Concat(chunks[..3])| <= BUFFER_TEST
    ensures Download(s, chunks, creates, reopens, behind).counted == |Concat(chunks[..3])|
  {
    DecidesThenStreams(Connect(s, creates), chunks, reopens, behind);
  }
}
