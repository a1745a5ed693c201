/** The receive path in place: the cache array the UART task overwrites, the
    pointer into it that the reader keeps across calls, and buff_ser1. */
module Receivers {
  import opened Layout
  import opened Frame
  import M = Mailbox

  class Receiver {
    const cache: array<byte>
    const buff: array<byte>
    var available: nat
    var ptr: array?<byte>
    var claimLen: nat
    var claimPos: nat
    var tail: nat
    var received: nat
    var bootloaderMode: bool
    var ackReceived: bool

    ghost predicate Valid()
      reads this
    {
      && cache.Length == BUFFER && buff.Length == BUFFER && cache != buff
      && (ptr == null || ptr == cache)
      && available <= BUFFER && claimLen <= BUFFER
    }

    ghost function View(): (rx: M.Rx)
      reads this, cache, buff
    {
      M.Rx(cache[..], available, ptr != null, claimLen, claimPos, tail, buff[..], received, bootloaderMode, ackReceived)
    }

    constructor ()
      ensures Valid() && View() == M.POWER_ON
      ensures fresh(cache) && fresh(buff)
    {
      cache := new byte[BUFFER](_ => 0);
      buff := new byte[BUFFER](_ => 0);
      available, ptr, claimLen, claimPos, tail, received := 0, null, 0, 0, 0, 0;
      bootloaderMode, ackReceived := false, false;
    }

    /** The UART_DATA case of the UART task. */
    method OnUartData(event: seq<byte>)
      requires Valid()
      modifies this`available, cache
      ensures Valid() && View() == M.Arrive(old(View()), event)
    {
      var copyLen := |event|;
      if copyLen > BUFFER {
        copyLen := BUFFER;
      }
      available := copyLen;
      forall i | 0 <= i < BUFFER {
        cache[i] := 0;
      }
      forall i | 0 <= i < copyLen {
        cache[i] := event[i];
      }
      assert cache[..] == Padded(event[..copyLen]);
    }

    method RxClaim() returns (claimed: nat)
      requires Valid()
      modifies this`available, this`ptr
      ensures Valid() && claimed == old(available) && available == 0
      ensures ptr == if claimed == 0 then old(ptr) else cache
    {
      claimed := available;
      if available != 0 {
        ptr := cache;
        available := 0;
      }
    }

    method SerialAvailable() returns (n: nat)
      requires Valid()
      modifies this`available, this`ptr, this`claimLen, this`claimPos
      ensures Valid() && (View(), n) == M.Available(old(View()))
    {
      if claimPos < claimLen {
        return claimLen - claimPos;
      }
      claimLen := RxClaim();
      claimPos := 0;
      n := claimLen;
    }

    method SerialRead() returns (data: byte)
      requires Valid()
      modifies this`ptr, this`claimLen, this`claimPos
      ensures Valid() && (View(), data) == M.NextByte(old(View()))
    {
      data := 0;
      if ptr != null && claimPos < claimLen {
        data := ptr[claimPos];
        claimPos := claimPos + 1;
        if claimPos >= claimLen {
          ptr := null;
          claimLen := 0;
          claimPos := 0;
        }
      }
    }

    /** The download loop of Read_Message.  `during` says which bursts the higher-priority UART
        task stores while the message is being drained. */
    method Download(len: nat, during: M.Arrivals)
      requires Valid() && len < BUFFER
      modifies this`available, this`ptr, this`claimLen, this`claimPos, cache, buff
      ensures Valid() && View() == M.DrainFrom(old(View()), 0, len, during)
    {
      ghost var start := View();
      for i := 0 to len
        invariant Valid()
        invariant M.DrainFrom(View(), i, len, during) == M.DrainFrom(start, 0, len, during)
      {
        if i in during {
          OnUartData(during[i]);
        }
        buff[i] := SerialRead();
      }
    }

    method ReadMessage(during: M.Arrivals) returns (code: int)
      requires Valid()
      modifies this, cache, buff
      ensures Valid() && (View(), code) == M.ReadMessage(old(View()), during)
    {
      var byteAval := SerialAvailable();
      if byteAval != 0 {
        if byteAval != tail {
          tail := byteAval;
          return RUN_DOWNLOAD;
        }
      } else if tail == 0 {
        return BUFFER_RX_EMPTY;
      }
      code := DrainMessage(during);
    }

    /** Read_Message from the download on. */
    method DrainMessage(during: M.Arrivals) returns (code: int)
      requires Valid()
      modifies this, cache, buff
      ensures Valid() && (View(), code) == M.Drain(old(View()), during)
    {
      ghost var before := View();
      var len := tail % BUFFER;
      tail := 0;
      forall i | 0 <= i < BUFFER {
        buff[i] := 0;
      }
      assert View() == before.(tail := 0, buf := Blank());
      Download(len, during);
      received := len;
      code := JudgeMessage(len);
    }

    /** The token search, then the checks. */
    method JudgeMessage(len: nat) returns (code: int)
      requires Valid() && len < BUFFER
      modifies this`ackReceived, this`bootloaderMode
      ensures Valid() && code == Judge(buff[..], len)
      ensures bootloaderMode == (old(bootloaderMode) || Contains(CString(buff[..]), BOOTLOADER))
      ensures ackReceived == (old(ackReceived) || (Contains(CString(buff[..]), ACK) && !Contains(CString(buff[..]), BOOTLOADER)))
    {
      code := len;
      if Contains(CString(buff[..]), BOOTLOADER) {
        bootloaderMode := true;
      } else if Contains(CString(buff[..]), ACK) {
        ackReceived := true;
      } else {
        code := CheckMessage(len);
      }
    }

    method CheckMessage(len: nat) returns (code: int)
      requires Valid() && len < BUFFER
      ensures code == Verify(buff[..], len)
    {
      if buff[0] != START_MSG_0 || buff[1] != START_MSG_1 {
        return ERROR_HEAD_MESSAGE;
      }
      var i: nat := buff[POS_CRC_LO];
      if i + 2 != len || len <= START_DATA {
        return ERROR_LEN_MESSAGE;
      }
      var stored := Word(buff[i], buff[i + 1]);
      var computed := CalcCksum16(buff, i);
      assert buff[..][..i] == buff[..i];
      return if stored != computed then ERROR_CKSUM_16 else len;
    }
  }
}
