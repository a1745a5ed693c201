/** The request builders: each fills a transmit buffer and seals it.  Every
    builder is held to the same yardstick, the unit's own reading of a frame. */
module Requests {
  import opened Layout
  import opened Frame
  import Mailbox

  /** What the firmware asks of the unit. */
  datatype Request =
    | PollingBase
    | DataDebug
    | ReadEeprom(k: Section)
    | WriteEeprom(k: Section, data: seq<byte>)

  /** What a frame says to the unit. */
  datatype Command =
    | AskPolling(error: byte, serial: seq<byte>)
    | AskDebug
    | AskRead(start: byte, count: byte)
    | AskWrite(at: byte, bytes: seq<byte>)
    | Unintelligible

  /** The unit's reading of a burst, from the protocol's field positions alone. */
  function Understand(f: seq<byte>): Command {
    if !IsFrame(f) then Unintelligible
    else
      var p := |f| - 2;
      if f[TYPE_COMAND] == COMMAND_POLLING_BASE && p >= 5 then AskPolling(f[4], f[5..p])
      else if f[TYPE_COMAND] == COMMAND_DATA_DEBUG then AskDebug
      else if f[TYPE_COMAND] == COMMAND_READ_EEPROM && p == 6 then AskRead(f[4], f[5])
      else if f[TYPE_COMAND] == COMMAND_WRITE_EEPROM && p >= 6 && f[5] == p - 6 then AskWrite(f[4], f[6..p])
      else Unintelligible
  }

  /** Frame f makes the unit hear request q. */
  predicate Conveys(f: seq<byte>, q: Request) {
    match q
    case PollingBase => Understand(f).AskPolling?
    case DataDebug => Understand(f) == AskDebug
    case ReadEeprom(k) => Understand(f) == AskRead(Start(k), Count(k))
    case WriteEeprom(k, data) => Understand(f) == AskWrite(Start(k), data)
  }

  /** memcpy into a transmit or receive buffer. */
  method CopyInto(dst: array<byte>, at: nat, src: seq<byte>)
    requires at + |src| <= dst.Length
    modifies dst
    ensures dst[..] == old(dst[..at]) + src + old(dst[at + |src|..])
  {
    forall i | 0 <= i < |src| {
      dst[at + i] := src[i];
    }
  }

  method ComSendRequestPollingBase(serialNumber: seq<byte>, error: byte) returns (wire: seq<byte>)
    requires |serialNumber| <= 120
    ensures Understand(wire) == AskPolling(error, serialNumber)
  {
    var txBuffer := new byte[BUFFER];
    txBuffer[POS_CRC_LO] := |serialNumber| + START_DATA + 1;
    txBuffer[TYPE_COMAND] := COMMAND_POLLING_BASE;
    txBuffer[START_DATA] := error;
    for i := START_DATA + 1 to |serialNumber| + START_DATA + 1
      invariant txBuffer[POS_CRC_LO] == |serialNumber| + START_DATA + 1
      invariant txBuffer[TYPE_COMAND] == COMMAND_POLLING_BASE && txBuffer[START_DATA] == error
      invariant txBuffer[START_DATA + 1..i] == serialNumber[..i - START_DATA - 1]
    {
      txBuffer[i] := serialNumber[i - START_DATA - 1];
    }
    ghost var was: seq<byte> := txBuffer[..];
    wire := WriteMessage(txBuffer);
    SealedIsFrame(was);
    var p := |wire| - 2;
    assert wire[3..p] == was[3..p];
    assert wire[TYPE_COMAND] == wire[3..p][0] && wire[4] == wire[3..p][1];
    assert wire[5..p] == wire[3..p][2..] == was[3..p][2..] == was[5..p] == serialNumber;
  }

  /** The two filler bytes of the debug request are never set; the unit does not look at them. */
  method ComSendRequestDataDebug() returns (wire: seq<byte>)
    ensures Understand(wire) == AskDebug
  {
    var txBuffer := new byte[BUFFER];
    txBuffer[POS_CRC_LO] := 6;
    txBuffer[TYPE_COMAND] := COMMAND_DATA_DEBUG;
    ghost var was: seq<byte> := txBuffer[..];
    wire := WriteMessage(txBuffer);
    SealedIsFrame(was);
    assert wire[TYPE_COMAND] == wire[3..6][0] == was[3..6][0];
  }

  method ComSendRequestReadEeprom(startAddress: byte, count: byte) returns (wire: seq<byte>)
    ensures Understand(wire) == AskRead(startAddress, count)
  {
    var txBuffer := new byte[BUFFER];
    txBuffer[POS_CRC_LO] := 6;
    txBuffer[TYPE_COMAND] := COMMAND_READ_EEPROM;
    txBuffer[4] := startAddress;
    txBuffer[5] := count;
    ghost var was: seq<byte> := txBuffer[..];
    wire := WriteMessage(txBuffer);
    SealedIsFrame(was);
    assert wire[3..6] == was[3..6];
    assert wire[3] == wire[3..6][0] && wire[4] == wire[3..6][1] && wire[5] == wire[3..6][2];
  }

  method ComSendRequestReadEeprom1(k: Section) returns (wire: seq<byte>)
    ensures Conveys(wire, ReadEeprom(k))
  {
    wire := ComSendRequestReadEeprom(Start(k), Count(k));
  }

  /** Nothing is sent when the range runs past the record.  A longer one than the transmit buffer
      holds with its header and checksum ends the model: the code then writes past that buffer.  The
      one count that just fits, 120, makes a frame whose length is cut to 0 on its way out. */
  method ComSendRequestWriteEeprom(eeprom: array<byte>, startAddress: byte, count: byte) returns (overrun: bool, wire: seq<byte>)
    requires eeprom.Length == EEPROM_SIZE
    ensures overrun <==> count > 120 && (startAddress as int) + count <= EEPROM_SIZE
    ensures wire == [] <==> (startAddress as int) + count > EEPROM_SIZE || count >= 120
    ensures wire != [] ==>
              && (startAddress as int) + count <= EEPROM_SIZE
              && Understand(wire) == AskWrite(startAddress, eeprom[startAddress..(startAddress as int) + count])
  {
    overrun, wire := false, [];
    var from: nat, n: nat := startAddress, count;
    if from + n <= EEPROM_SIZE {
      if n > 120 {
        return true, [];
      }
      var txBuffer := new byte[BUFFER];
      txBuffer[POS_CRC_LO] := 6 + n;
      txBuffer[TYPE_COMAND] := COMMAND_WRITE_EEPROM;
      txBuffer[4] := startAddress;
      txBuffer[5] := count;
      CopyInto(txBuffer, 6, eeprom[from..from + n]);
      ghost var was: seq<byte> := txBuffer[..];
      assert was[6..6 + n] == eeprom[from..from + n];
      wire := WriteMessage(txBuffer);
      if n < 120 {
        SealedIsFrame(was);
        WriteUnderstood(was, wire, n);
      }
    }
  }

  /** A sealed write of n bytes is understood as that write. */
  lemma WriteUnderstood(was: seq<byte>, wire: seq<byte>, n: nat)
    requires |was| == BUFFER && was[POS_CRC_LO] == 6 + n && n < 120
    requires was[TYPE_COMAND] == COMMAND_WRITE_EEPROM && was[5] == n
    requires IsFrame(wire) && |wire| == 8 + n && wire[3..6 + n] == was[3..6 + n]
    ensures Understand(wire) == AskWrite(was[4], was[6..6 + n])
  {
    var p := 6 + n;
    assert wire[3] == wire[3..p][0] && wire[4] == wire[3..p][1] && wire[5] == wire[3..p][2];
    assert wire[6..p] == wire[3..p][3..] == was[3..p][3..] == was[6..p];
  }

  /** The section form knows every section but Configuration. */
  method ComSendRequestWriteEeprom1(eeprom: array<byte>, k: Section) returns (known: bool, wire: seq<byte>)
    requires eeprom.Length == EEPROM_SIZE
    ensures known <==> k != Configuration
    ensures if known then Conveys(wire, WriteEeprom(k, Bytes(eeprom[..], k))) else wire == []
  {
    known, wire := k != Configuration, [];
    if known {
      var overrun, frame := ComSendRequestWriteEeprom(eeprom, Start(k), Count(k));
      wire := frame;
      assert eeprom[..][Start(k)..Start(k) + Count(k)] == eeprom[Start(k)..Start(k) + Count(k)];
    }
  }

  /** Every request the builders make arrives: through an idle receiver it takes two Read_Message
      calls and comes out as sent, its length as the result. */
  lemma RequestArrives(rx: Mailbox.Rx, f: seq<byte>, q: Request)
    requires Mailbox.Idle(rx) && Conveys(f, q)
    ensures var (r1, first) := Mailbox.ReadMessage(Mailbox.Arrive(rx, f), map[]);
            var (r2, second) := Mailbox.ReadMessage(r1, map[]);
            first == RUN_DOWNLOAD && second == |f| && r2.buf == Padded(f)
  {
    assert IsFrame(f);
    Mailbox.DrainedInTwoCalls(rx, f);
    VerifyAcceptsFrames(f);
  }
}
