/** The unit task in place: its global variables as fields, the shared record as
    the byte array it is, the request word with its masks, and each loop case as
    a method held to the step functions of Link.dfy.  Every frame handed to the
    UART is kept there beside the request it makes the unit hear. */
module UnitTasks {
  import opened Layout
  import opened Frame
  import opened Requests
  import opened Link
  import opened Nodes
  import opened Globals
  import FlagWord
  import Mailbox
  import opened Receivers
  import Bootloader

  /** Raising the re-read flags one after the other is raising them all. */
  lemma RereadsInTurn(jobs: set<Job>, a: Counters, b: Counters)
    ensures jobs + Rereads(a, b) ==
            (((jobs + Moved(a, b, Info)) + Moved(a, b, SettingPar)) + Moved(a, b, SetTemp)) + Moved(a, b, DayProg)
  {
  }

  class UnitTask {
    const shared: Shared
    const uart: Uart
    const rx: Receiver
    const boot: Bootloader.BootTransfer
    const serialNumber: seq<byte>
    var error: byte
    var com: Com
    var conn: Conn
    var retriesCounter: nat
    var foundComLink: bool
    var runtimeReady: bool
    var runningMode: Mode
    var globalTimeout: u32
    var pollingTimer: u32
    var debugTimer: u32
    var eepromDataReceived: bool
    var extInfo: byte
    var extSetting: byte
    var extSetTemp: byte
    var extWeekly: byte
    var extInitialized: bool
    var valRet: int

    ghost predicate Valid()
      reads rx, shared, shared.eeprom, uart
    {
      && rx.Valid() && shared.Valid() && uart.Valid() && boot.Valid() && |serialNumber| <= 120
      && boot.sendBuffer != rx.cache && boot.sendBuffer != rx.buff
      && boot.tempBuffer != rx.cache && boot.tempBuffer != rx.buff
      && shared.eeprom != rx.cache && shared.eeprom != rx.buff
      && shared.eeprom != boot.sendBuffer && shared.eeprom != boot.tempBuffer
    }

    ghost function View(): (t: Task)
      reads this, shared, boot
    {
      Task(com, conn, retriesCounter, foundComLink, runtimeReady, runningMode, globalTimeout, pollingTimer, debugTimer,
           shared.jobs, eepromDataReceived, Counters(extInfo, extSetting, extSetTemp, extWeekly), extInitialized,
           shared.image, shared.landing, boot.View())
    }

    /** What the last Read_Message call left. */
    ghost function Seen(): (m: Msg)
      requires Valid()
      reads this, rx, rx.buff, shared, shared.eeprom, uart
    {
      Msg(valRet, rx.buff[..], rx.bootloaderMode, rx.ackReceived)
    }

    /** What a step did is what the specification's outcome says. */
    twostate predicate Did(out: Out)
      reads this, shared, boot, uart
    {
      View() == out.task && uart.requests == old(uart.requests) + out.sent && uart.chars == old(uart.chars) + out.chars
    }

    constructor (shared: Shared, serialNumber: seq<byte>)
      requires |serialNumber| <= 120 && shared.Valid()
      ensures Valid() && this.shared == shared && fresh(rx) && fresh(boot) && fresh(rx.cache) && fresh(rx.buff) && fresh(uart)
      ensures shared.jobs == {} && shared.landing == 0 ==> View() == Boot(shared.image)
      ensures rx.View() == Mailbox.POWER_ON && uart.requests == [] && uart.chars == []
    {
      this.shared := shared;
      this.serialNumber := serialNumber;
      rx := new Receiver();
      boot := new Bootloader.BootTransfer();
      uart := new Uart();
      error := 0;
      com, conn, retriesCounter, foundComLink, runtimeReady := WbmInitialize, Init, 0, false, false;
      runningMode, globalTimeout, pollingTimer, debugTimer := Initializing, 0, 0, 0;
      eepromDataReceived, extInfo, extSetting, extSetTemp, extWeekly, extInitialized := false, 0, 0, 0, 0, false;
      valRet := 0;
    }

    // ---- Sending ------------------------------------------------------------

    method SendPolling()
      requires Valid()
      modifies uart
      ensures Valid() && uart.requests == old(uart.requests) + [PollingBase] && uart.chars == old(uart.chars)
      ensures |uart.frames| == |old(uart.frames)| + 1
      ensures Understand(uart.frames[|old(uart.frames)|]) == Command.AskPolling(error, serialNumber)
    {
      var wire := ComSendRequestPollingBase(serialNumber, error);
      uart.Write(wire, PollingBase);
    }

    method SendDebug()
      requires Valid()
      modifies uart
      ensures Valid() && uart.requests == old(uart.requests) + [DataDebug] && uart.chars == old(uart.chars)
    {
      var wire := ComSendRequestDataDebug();
      uart.Write(wire, DataDebug);
    }

    method SendRead(k: Section)
      requires Valid()
      modifies uart
      ensures Valid() && uart.requests == old(uart.requests) + [ReadEeprom(k)] && uart.chars == old(uart.chars)
    {
      var wire := ComSendRequestReadEeprom1(k);
      uart.Write(wire, ReadEeprom(k));
    }

    method SendWrite(k: Section)
      requires Valid() && k != Configuration
      modifies uart
      ensures Valid() && uart.requests == old(uart.requests) + [WriteEeprom(k, Bytes(shared.image, k))]
      ensures uart.chars == old(uart.chars)
    {
      var _, wire := ComSendRequestWriteEeprom1(shared.eeprom, k);
      uart.Write(wire, WriteEeprom(k, Bytes(shared.image, k)));
    }

    // ---- Parsers ------------------------------------------------------------

    method SeedExternalCounters()
      requires Valid()
      modifies this`extInfo, this`extSetting, this`extSetTemp, this`extWeekly, this`extInitialized
      ensures Valid() && View() == Seed(old(View()))
    {
      var info := shared.Load(CounterAt(Info));
      var setting := shared.Load(CounterAt(SettingPar));
      var settemp := shared.Load(CounterAt(SetTemp));
      var weekly := shared.Load(CounterAt(DayProg));
      SetExternalCounters(Counters(info, setting, settemp, weekly));
      extInitialized := true;
    }

    method SetExternalCounters(now: Counters)
      modifies this`extInfo, this`extSetting, this`extSetTemp, this`extWeekly
      ensures View() == old(View()).(ext := now)
    {
      extInfo, extSetting, extSetTemp, extWeekly := now.info, now.setting, now.settemp, now.weekly;
    }

    method PollingBaseDataParse()
      requires Valid()
      modifies this`extInfo, this`extSetting, this`extSetTemp, this`extWeekly, this`extInitialized, shared
      ensures Valid() && View() == PollingParse(old(View()), rx.buff[..])
    {
      var polled := PollCounters(rx.buff[..]);
      if !extInitialized {
        SeedExternalCounters();
      }
      CompareCounters(polled);
      assert rx.buff[..] == old(rx.buff[..]);
    }

    /** The four counter comparisons of a polling reply. */
    method CompareCounters(polled: Counters)
      requires Valid()
      modifies this`extInfo, this`extSetting, this`extSetTemp, this`extWeekly, shared
      ensures Valid() && View() == old(View()).(jobs := old(View()).jobs + Rereads(polled, old(View()).ext), ext := polled)
    {
      ghost var was := View();
      RaiseChanged(polled);
      assert View() == was.(jobs := was.jobs + Rereads(polled, was.ext));
      SetExternalCounters(polled);
    }

    method RaiseChanged(polled: Counters)
      requires Valid()
      modifies shared
      ensures Valid() && shared.image == old(shared.image) && shared.landing == old(shared.landing)
      ensures shared.jobs == old(shared.jobs) + Rereads(polled, Counters(extInfo, extSetting, extSetTemp, extWeekly))
    {
      ghost var ext, jobs := Counters(extInfo, extSetting, extSetTemp, extWeekly), shared.jobs;
      ExternalChange(Info, polled.info, extInfo);
      ExternalChange(SettingPar, polled.setting, extSetting);
      ExternalChange(SetTemp, polled.settemp, extSetTemp);
      ExternalChange(DayProg, polled.weekly, extWeekly);
      RereadsInTurn(jobs, polled, ext);
    }

    /** One polled counter against the last one seen. */
    method ExternalChange(k: Section, cnt: byte, ext: byte)
      requires Valid() && Counted(k)
      modifies shared
      ensures Valid() && shared.image == old(shared.image) && shared.landing == old(shared.landing)
      ensures shared.jobs == old(shared.jobs) + if cnt != ext then {ReadJob(k)} else {}
    {
      if cnt != ext {
        shared.Raise(ReadJob(k));
      }
    }

    method ReadEepromDataParse()
      requires Valid()
      modifies shared, shared.eeprom
      ensures Valid() && View() == ReadParse(old(View()), rx.buff[..])
    {
      ghost var buf := rx.buff[..];
      shared.CopyIn(rx.buff[4], Clip(rx.buff[..], 6, rx.buff[5]));
      assert rx.buff[..] == buf;
    }

    method WriteEepromDataParse()
      requires Valid()
      modifies shared, shared.eeprom
      ensures Valid() && View() == WriteParse(old(View()), rx.buff[..])
    {
      ghost var was, buf := View(), rx.buff[..];
      CounterUpdate(Info, rx.buff[7]);
      CounterUpdate(SettingPar, rx.buff[8]);
      CounterUpdate(SetTemp, rx.buff[9]);
      CounterUpdate(DayProg, rx.buff[10]);
      assert rx.buff[..] == buf;
      RereadsInTurn(was.jobs, AckCounters(buf), MirrorCounters(was.mirror));
      assert View() == was.(jobs := shared.jobs, mirror := shared.image);
    }

    /** One section of the write acknowledgement: ask for a re-read if its counter moved, and take
        the new counter over. */
    method CounterUpdate(k: Section, cnt: byte)
      requires Valid() && Counted(k)
      modifies shared, shared.eeprom
      ensures Valid() && shared.landing == old(shared.landing)
      ensures shared.image == old(shared.image)[CounterAt(k) := cnt]
      ensures shared.jobs == old(shared.jobs) + if cnt != Counter(old(shared.image), k) then {ReadJob(k)} else {}
    {
      var current := shared.Load(CounterAt(k));
      if cnt != current {
        shared.Raise(ReadJob(k));
      }
      shared.StoreByte(CounterAt(k), cnt);
    }

    // ---- Scheduler ----------------------------------------------------------

    /** What the application's tasks do while the unit task waits. */
    method Elsewhere(steps: seq<AppStep>)
      requires Valid()
      modifies shared, shared.eeprom
      ensures Valid() && View() == AppRuns(old(View()), steps)
    {
      ghost var was := View();
      for i := 0 to |steps|
        invariant Valid() && View() == AppRuns(was, steps[..i])
      {
        ghost var now := View();
        shared.Perform(steps[i]);
        assert View() == AppDoes(now, steps[i]);
        assert steps[..i + 1][..i] == steps[..i];
      }
      assert steps[..|steps|] == steps;
    }

    /** The chain of bit tests. */
    method Pick() returns (turn: seq<Job>)
      requires Valid()
      ensures turn == Turn(shared.jobs)
    {
      var up := shared.Test(ReadJob(Info));
      if up { return [ReadJob(Info)]; }
      up := shared.Test(ReadJob(SettingPar));
      if up { return [ReadJob(SettingPar)]; }
      up := shared.Test(ReadJob(SetTemp));
      if up { return [ReadJob(SetTemp)]; }
      up := shared.Test(ReadJob(DayProg));
      if up { return [ReadJob(DayProg)]; }
      up := shared.Test(ButtonJob(0));
      if up { return [ButtonJob(0)]; }
      up := shared.Test(ButtonJob(1));
      if up { return [ButtonJob(1)]; }
      up := shared.Test(ButtonJob(2));
      if up { return [ButtonJob(2)]; }
      up := shared.Test(ButtonJob(3));
      if up { return [ButtonJob(3)]; }
      up := shared.Test(ButtonJob(4));
      if up { return [ButtonJob(4)]; }
      up := shared.Test(ButtonJob(5));
      if up { return [ButtonJob(5)]; }
      up := shared.Test(WriteJob(Info));
      if up { return [WriteJob(Info)]; }
      up := shared.Test(WriteJob(SettingPar));
      if up { return [WriteJob(SettingPar)]; }
      up := shared.Test(WriteJob(SetTemp));
      if up { return [WriteJob(SetTemp)]; }
      up := shared.Test(WriteJob(DayProg));
      if up { return [WriteJob(DayProg)]; }
      up := shared.Test(WriteJob(HWSetting));
      if up { return [WriteJob(HWSetting)]; }
      return [];
    }

    method SendFor(j: Job)
      requires Valid() && j != WriteJob(Configuration)
      modifies uart
      ensures Valid() && uart.requests == old(uart.requests) + Wanted(j, shared.image) && uart.chars == old(uart.chars)
    {
      match j
      case ReadJob(k) => SendRead(k);
      case ButtonJob(_) =>
      case WriteJob(k) => SendWrite(k);
    }

    /** One branch of the chain: the frame, which takes its time, then the busy flag and the bit. */
    method ServeJob(j: Job, during: seq<AppStep>)
      requires Valid() && FlagWord.HasBit(j) && j != WriteJob(Configuration)
      modifies this`eepromDataReceived, shared, shared.eeprom, uart
      ensures Valid() && View() == Cleared(AppRuns(old(View()), during), j)
      ensures uart.requests == old(uart.requests) + Wanted(j, old(shared.image)) && uart.chars == old(uart.chars)
    {
      SendFor(j);
      Elsewhere(during);
      ghost var now := View();
      eepromDataReceived := true;
      shared.Clear(j);
      assert View() == now.(jobs := now.jobs - {j}, busy := true);
    }

    method ScheduleRequest(during: seq<AppStep>)
      requires Valid()
      modifies this`eepromDataReceived, shared, shared.eeprom, uart
      ensures Valid() && Did(Scheduled(old(View()), during))
    {
      ghost var was := View();
      if shared.requestIndex != 0 && !eepromDataReceived {
        var turn := Pick();
        if turn != [] {
          FlagWord.TurnHasBit(shared.jobs);
          ServeJob(turn[0], during);
          assert Scheduled(was, during) == Out(Cleared(AppRuns(was, during), turn[0]), Wanted(turn[0], was.mirror), [], false);
        }
      } else if !eepromDataReceived {
        FlagWord.ZeroIsEmpty(shared.jobs);
      }
    }

    // ---- The Connected loop -------------------------------------------------

    method AskDebug()
      requires Valid()
      modifies this`eepromDataReceived, uart
      ensures Valid() && Did(Out(old(View()).(busy := true), if old(eepromDataReceived) then [] else [DataDebug], [], false))
    {
      if !eepromDataReceived {
        SendDebug();
        eepromDataReceived := true;
      }
    }

    method AskPolling()
      requires Valid()
      modifies this`eepromDataReceived, uart
      ensures Valid() && Did(Out(old(View()).(busy := true), if old(eepromDataReceived) then [] else [PollingBase], [], false))
      ensures !old(eepromDataReceived) ==>
                |uart.frames| == |old(uart.frames)| + 1 && Understand(uart.frames[|old(uart.frames)|]) == Command.AskPolling(error, serialNumber)
    {
      if !eepromDataReceived {
        SendPolling();
        eepromDataReceived := true;
      }
    }

    method DebugTimer(c: Clock)
      requires Valid()
      modifies this`eepromDataReceived, this`debugTimer, this`pollingTimer, this`globalTimeout, uart
      ensures Valid() && Did(DebugTick(old(View()), c))
    {
      ghost var was := View();
      if runningMode == Running {
        if Due(c.debugTest, debugTimer, DEBUG_MS) {
          AskDebug();
          debugTimer, pollingTimer, globalTimeout := c.debugSet, c.debugSet, c.debugSet;
          assert View() == was.(busy := true, debugMs := c.debugSet, pollMs := c.debugSet, globalMs := c.debugSet);
        }
      }
    }

    method PollingTimer(c: Clock)
      requires Valid()
      modifies this`eepromDataReceived, this`pollingTimer, this`globalTimeout, uart
      ensures Valid() && Did(PollTick(old(View()), c))
    {
      ghost var was := View();
      if runningMode == PowerOff || runningMode == Running {
        if Due(c.pollTest, pollingTimer, if runningMode == PowerOff then POLLING_OFF_MS else POLLING_ON_MS) {
          AskPolling();
          pollingTimer, globalTimeout := c.pollSet, c.pollSet;
          assert View() == was.(busy := true, pollMs := c.pollSet, globalMs := c.pollSet);
        }
      }
    }

    method LinkLossTest(c: Clock)
      requires Valid()
      modifies this`com, this`retriesCounter, this`eepromDataReceived, this`extInitialized, shared
      ensures Valid() && View() == LossTest(old(View()), c)
    {
      ghost var was := View();
      if Due(c.lossTest, globalTimeout, TIMEOUT_MS) {
        com, retriesCounter, eepromDataReceived, extInitialized := WbmError, 0, false, false;
        shared.ClearAll();
        assert View() == was.(com := WbmError, retries := 0, busy := false, jobs := {}, extInit := false);
      }
    }

    method ConnectedHead(c: Clock)
      requires Valid()
      modifies this, shared, uart
      ensures Valid() && Did(Head(old(View()), c)) && valRet == old(valRet)
    {
      DebugTimer(c);
      PollingTimer(c);
      LinkLossTest(c);
    }

    method Hear(during: Mailbox.Arrivals)
      requires Valid()
      modifies this`valRet, rx, rx.cache, rx.buff
      ensures Valid() && View() == old(View())
      ensures (rx.View(), Seen()) == Link.Hear(old(rx.View()), during)
    {
      valRet := rx.ReadMessage(during);
    }

    method DispatchMessage()
      requires Valid()
      modifies this`extInfo, this`extSetting, this`extSetTemp, this`extWeekly, this`extInitialized, this`eepromDataReceived
      modifies shared, shared.eeprom
      ensures Valid() && View() == Dispatch(old(View()), rx.buff[..])
    {
      ghost var buf, was := rx.buff[..], View();
      if rx.buff[TYPE_COMAND] == COMMAND_POLLING_BASE {
        PollingBaseDataParse();
        eepromDataReceived := false;
        assert View() == PollingParse(was, buf).(busy := false);
      } else if rx.buff[TYPE_COMAND] == COMMAND_DATA_DEBUG {
        eepromDataReceived := false;
      } else if rx.buff[TYPE_COMAND] == COMMAND_READ_EEPROM {
        ReadEepromDataParse();
        eepromDataReceived := false;
        assert View() == ReadParse(was, buf).(busy := false);
      } else if rx.buff[TYPE_COMAND] == COMMAND_WRITE_EEPROM {
        WriteEepromDataParse();
        eepromDataReceived := false;
        assert View() == WriteParse(was, buf).(busy := false);
      }
      assert rx.buff[..] == buf;
    }

    method DigestMessage(c: Clock)
      requires Valid()
      modifies this, shared, shared.eeprom, rx.buff
      ensures Valid() && View() == Digest(old(View()), c, old(Seen()))
      ensures rx.View() == Settle(old(rx.View()), old(valRet))
    {
      if valRet > RUN_DOWNLOAD {
        globalTimeout := c.stamp;
        DispatchMessage();
      } else if valRet < 0 {
        eepromDataReceived := false;
        forall i | 0 <= i < BUFFER {
          rx.buff[i] := 0;
        }
        assert rx.buff[..] == Blank();
      }
    }

    /** From Read_Message to the scheduler. */
    method ConnectedRead(c: Clock, during: Mailbox.Arrivals)
      requires Valid()
      modifies this, shared, shared.eeprom, rx, rx.cache, rx.buff
      ensures Valid()
      ensures var (r, m) := Link.Hear(old(rx.View()), during);
              View() == Digest(old(View()), c, m) && rx.View() == Settle(r, m.code)
    {
      Hear(during);
      DigestMessage(c);
    }

    // ---- Handshake ----------------------------------------------------------

    method OnSerialTimeout(c: Clock)
      requires Valid()
      modifies this`retriesCounter, this`conn, this`globalTimeout
      ensures Valid() && Did(Quietly(SerialTimeout(old(View()), c)))
    {
      if retriesCounter == 2 {
        retriesCounter := 0;
        conn := Init;
      } else {
        globalTimeout := c.stamp;
        conn := LinkConnecting;
      }
    }

    method OnSerialMessage()
      requires Valid()
      modifies this`conn
      ensures Valid() && Did(Quietly(SerialMessage(old(View()), old(Seen()))))
    {
      if valRet > RUN_DOWNLOAD {
        conn := LinkConnected;
      }
      if rx.bootloaderMode {
        conn := BootloaderState;
      }
    }

    /** The request that follows a stage's reply. */
    method AskNext(stage: Conn)
      requires Valid()
      modifies uart
      ensures Valid() && uart.requests == old(uart.requests) + [NextAsk(stage)] && uart.chars == old(uart.chars)
    {
      if ReadStage(NextStage(stage)) {
        SendRead(Awaited(NextStage(stage)));
      } else {
        SendPolling();
      }
    }

    /** A reply in one of the six ReadEeprom stages; they differ only in the section stored and in
        the next request. */
    method OnSectionMessage(c: Clock)
      requires Valid() && ReadStage(conn)
      modifies this`conn, this`globalTimeout, shared, shared.eeprom, uart
      ensures Valid() && Did(SectionMessage(old(View()), c, old(Seen()))) && rx.View() == old(rx.View())
    {
      if valRet > RUN_DOWNLOAD {
        ghost var was, seen := View(), rx.View();
        shared.CopyIn(Start(Awaited(conn)), Clip(rx.buff[..], 6, rx.buff[5]));
        AskNext(conn);
        conn, globalTimeout := NextStage(conn), c.stamp;
        assert View() == was.(mirror := shared.image, conn := conn, globalMs := c.stamp);
        assert rx.View() == seen;
      }
    }

    method OnPollingMessage(c: Clock)
      requires Valid()
      modifies this`conn, this`globalTimeout
      ensures Valid() && Did(Quietly(PollingMessage(old(View()), c, old(Seen()))))
    {
      if valRet > RUN_DOWNLOAD {
        conn := Connected;
        globalTimeout := c.stamp;
      }
    }

    method GiveUp()
      requires Valid()
      modifies this`com, this`retriesCounter
      ensures Valid() && Did(Quietly(LinkLost(old(View()))))
    {
      com, retriesCounter := WbmError, 0;
    }

    method MarkConnected(c: Clock)
      requires Valid()
      modifies this`runningMode, this`pollingTimer, this`debugTimer, this`com, this`runtimeReady
      ensures Valid() && View() == Connecting(old(View()), c)
    {
      var power := shared.Load(Set_Power_ON);
      SetConnected(if power == 0 then PowerOff else Running, c.stamp);
    }

    method SetConnected(mode: Mode, now: u32)
      modifies this`runningMode, this`pollingTimer, this`debugTimer, this`com, this`runtimeReady
      ensures View() == old(View()).(mode := mode, pollMs := now, debugMs := now, com := WbmConnected, ready := true)
    {
      runningMode, pollingTimer, debugTimer, com, runtimeReady := mode, now, now, WbmConnected, true;
    }

    method EnterConnected(c: Clock)
      requires Valid()
      modifies this, shared
      ensures Valid() && Did(Quietly(FinishConnecting(old(View()), c, rx.buff[..])))
    {
      MarkConnected(c);
      PollingBaseDataParse();
      SeedExternalCounters();
    }

    method OnBootloader(io: Io)
      requires Valid()
      modifies this`conn, boot, boot.sendBuffer, uart
      ensures Valid() && Did(EnterBootloader(old(View()), io)) && rx.View() == old(rx.View())
    {
      if !io.updating {
        ghost var was := View();
        var header := boot.Announce(io.medium);
        uart.WriteChars(header);
        conn := if io.medium.Readable? then BootloaderState1 else BootloaderStateEnd;
        assert View() == was.(xfer := boot.View(), conn := conn);
      }
    }

    method OnAck()
      requires Valid() && conn == BootloaderState1
      modifies this`conn, rx`ackReceived, boot, boot.sendBuffer, boot.tempBuffer, uart
      ensures Valid() && rx.View() == old(rx.View()).(ack := false)
      ensures Did(Acknowledged(old(View()), old(Seen())))
    {
      if rx.ackReceived {
        Acknowledge();
      }
    }

    method Acknowledge()
      requires Valid()
      modifies this`conn, rx`ackReceived, boot, boot.sendBuffer, boot.tempBuffer, uart
      ensures Valid() && rx.View() == old(rx.View()).(ack := false)
      ensures var (x, chars, last) := Bootloader.OnAck(old(View()).xfer);
              Did(Out(old(View()).(xfer := x, conn := if last then BootloaderStateEnd else BootloaderState1), [], chars, true))
    {
      TakeAck();
      var finished := SendBlock();
      SetStage(if finished then BootloaderStateEnd else BootloaderState1);
    }

    method SetStage(stage: Conn)
      modifies this`conn
      ensures View() == old(View()).(conn := stage)
    {
      conn := stage;
    }

    method TakeAck()
      requires Valid()
      modifies rx`ackReceived
      ensures Valid() && rx.View() == old(rx.View()).(ack := false)
    {
      rx.ackReceived := false;
    }

    method SendBlock() returns (finished: bool)
      requires Valid()
      modifies boot, boot.sendBuffer, boot.tempBuffer, uart
      ensures Valid() && rx.View() == old(rx.View()) && uart.requests == old(uart.requests)
      ensures var (x, chars, last) := Bootloader.OnAck(old(boot.View()));
              boot.View() == x && uart.chars == old(uart.chars) + chars && finished == last
    {
      ghost var ear := rx.View();
      var wire, last := boot.SendNext();
      uart.WriteChars(wire);
      finished := last;
      assert rx.View() == ear;
    }

    method OpenLink(c: Clock)
      requires Valid() && conn == LinkConnecting
      modifies this`globalTimeout, this`conn, this`retriesCounter, uart
      ensures Valid() && Did(LinkStep(old(View()), c))
    {
      ghost var was := View();
      if retriesCounter < 2 && !foundComLink {
        SendPolling();
        retriesCounter, globalTimeout := retriesCounter + 1, c.stamp;
        conn := TrySerialLink;
        assert Did(Sending(was.(retries := was.retries + 1, globalMs := c.stamp, conn := TrySerialLink), PollingBase));
      } else {
        conn := TrySerialLink;
        assert Did(Quietly(was.(conn := TrySerialLink)));
      }
    }

    method Linked(c: Clock)
      requires Valid() && conn == LinkConnected
      modifies this`globalTimeout, this`conn, this`foundComLink, uart
      ensures Valid() && Did(LinkStep(old(View()), c))
    {
      ghost var was := View();
      SendRead(Info);
      foundComLink, conn, globalTimeout := true, ReadInfo, c.stamp;
      assert Did(Sending(was.(found := true, conn := ReadInfo, globalMs := c.stamp), ReadEeprom(Info)));
    }

    method StartLink(c: Clock)
      requires Valid() && conn == Init
      modifies this`globalTimeout, this`conn, this`retriesCounter
      ensures Valid() && Did(LinkStep(old(View()), c))
    {
      ghost var was := View();
      globalTimeout, conn, retriesCounter := c.stamp, LinkConnecting, 0;
      assert Did(Quietly(was.(globalMs := c.stamp, conn := LinkConnecting, retries := 0)));
    }

    /** What Connect_To_Unit did, a call of Read_Message included if it made one. */
    twostate predicate Connects(c: Clock, io: Io, during: Mailbox.Arrivals)
      requires old(rx.Valid()) && rx.Valid()
      reads this, shared, boot, uart, rx, rx.cache, rx.buff
    {
      var (r, m) := Listen(old(View()), c, old(rx.View()), during);
      var out := Connect(old(View()), c, m, io);
      Did(out) && rx.View() == if out.ackTaken then r.(ack := false) else r
    }

    method StepLink(c: Clock, io: Io, during: Mailbox.Arrivals)
      requires Valid() && conn in {Init, LinkConnecting, LinkConnected}
      modifies this`globalTimeout, this`conn, this`retriesCounter, this`foundComLink, uart
      ensures Valid() && Connects(c, io, during)
    {
      ghost var was, ear := View(), rx.View();
      ListenIs(was, c, ear, during);
      ConnectIs(was, c, Recall(ear), io);
      if conn == Init {
        StartLink(c);
      } else if conn == LinkConnecting {
        OpenLink(c);
      } else {
        Linked(c);
      }
      assert rx.View() == ear;
    }

    /** A reply stage whose time is up. */
    method StepTimeout(c: Clock, io: Io, during: Mailbox.Arrivals)
      requires Valid() && AwaitsReply(conn) && TimedOut(View(), c)
      modifies this`com, this`retriesCounter, this`conn, this`globalTimeout
      ensures Valid() && Connects(c, io, during)
    {
      ghost var was, ear := View(), rx.View();
      ListenIs(was, c, ear, during);
      ConnectIs(was, c, Recall(ear), io);
      if conn == TrySerialLink { OnSerialTimeout(c); } else { GiveUp(); }
      assert rx.View() == ear;
    }

    /** A reply stage in time. */
    method StepReply(c: Clock, io: Io, during: Mailbox.Arrivals)
      requires Valid() && AwaitsReply(conn) && !TimedOut(View(), c)
      modifies this, shared, shared.eeprom, uart, rx, rx.cache, rx.buff
      ensures Valid() && Connects(c, io, during)
    {
      ghost var was, ear := View(), rx.View();
      ListenIs(was, c, ear, during);
      Hear(during);
      ConnectIs(was, c, Seen(), io);
      OnReply(c);
    }

    method OnReply(c: Clock)
      requires Valid() && AwaitsReply(conn) && !TimedOut(View(), c)
      modifies this`conn, this`globalTimeout, shared, shared.eeprom, uart
      ensures Valid() && Did(ReplyStep(old(View()), c, old(Seen()))) && rx.View() == old(rx.View())
    {
      ghost var was, seen, ear := View(), Seen(), rx.View();
      if conn == TrySerialLink {
        OnSerialMessage();
        assert Did(Quietly(SerialMessage(was, seen)));
      } else if conn == AwaitPolling {
        OnPollingMessage(c);
        assert Did(Quietly(PollingMessage(was, c, seen)));
      } else {
        OnSectionMessage(c);
        assert Did(SectionMessage(was, c, seen));
      }
      assert rx.View() == ear;
    }

    /** The last step of the handshake. */
    method StepConnected(c: Clock, io: Io, during: Mailbox.Arrivals)
      requires Valid() && conn == Connected
      modifies this, shared
      ensures Valid() && Connects(c, io, during)
    {
      ghost var was, ear := View(), rx.View();
      ListenIs(was, c, ear, during);
      ConnectIs(was, c, Recall(ear), io);
      RestIs(was, c, Recall(ear), io);
      EnterConnected(c);
      assert rx.View() == ear;
    }

    method StepOpen(c: Clock, io: Io, during: Mailbox.Arrivals)
      requires Valid() && conn == BootloaderState
      modifies this`conn, boot, boot.sendBuffer, uart
      ensures Valid() && Connects(c, io, during)
    {
      ghost var was, ear := View(), rx.View();
      ListenIs(was, c, ear, during);
      ConnectIs(was, c, Recall(ear), io);
      RestIs(was, c, Recall(ear), io);
      OnBootloader(io);
    }

    method StepAck(c: Clock, io: Io, during: Mailbox.Arrivals)
      requires Valid() && conn == BootloaderState1
      modifies this`valRet, this`conn, uart, rx, rx.cache, rx.buff, boot, boot.sendBuffer, boot.tempBuffer
      ensures Valid() && Connects(c, io, during)
    {
      ghost var was, ear := View(), rx.View();
      ListenIs(was, c, ear, during);
      Hear(during);
      ConnectIs(was, c, Seen(), io);
      RestIs(was, c, Seen(), io);
      OnAck();
    }

    method StepIdle(c: Clock, io: Io, during: Mailbox.Arrivals)
      requires Valid() && conn == BootloaderStateEnd
      ensures Valid() && Connects(c, io, during)
    {
      ghost var was, ear := View(), rx.View();
      ListenIs(was, c, ear, during);
      ConnectIs(was, c, Recall(ear), io);
      RestIs(was, c, Recall(ear), io);
    }

    /** Connect_To_Unit. */
    method ConnectToUnit(c: Clock, io: Io, during: Mailbox.Arrivals)
      requires Valid()
      modifies this, shared, shared.eeprom, uart, rx, rx.cache, rx.buff, boot, boot.sendBuffer, boot.tempBuffer
      ensures Valid() && Connects(c, io, during)
    {
      if conn == Init || conn == LinkConnecting || conn == LinkConnected {
        StepLink(c, io, during);
      } else if AwaitsReply(conn) {
        if Due(c.lossTest, globalTimeout, TIMEOUT_MS) { StepTimeout(c, io, during); } else { StepReply(c, io, during); }
      } else if conn == Connected {
        StepConnected(c, io, during);
      } else if conn == BootloaderState {
        StepOpen(c, io, during);
      } else if conn == BootloaderState1 {
        StepAck(c, io, during);
      } else {
        StepIdle(c, io, during);
      }
    }

    /** From Read_Message on. */
    method ConnectedTail(c: Clock, during: Mailbox.Arrivals, w: Meanwhile)
      requires Valid()
      modifies this, shared, shared.eeprom, uart, rx, rx.cache, rx.buff
      ensures Valid()
      ensures var (r, m) := Link.Hear(old(rx.View()), during);
              var d := Digest(AppRuns(old(View()), w.reading), c, m);
              Did(Scheduled(AppRuns(d, w.scheduling), w.sending)) && rx.View() == Settle(r, m.code)
    {
      Elsewhere(w.reading);
      ConnectedRead(c, during);
      Elsewhere(w.scheduling);
      ScheduleRequest(w.sending);
    }

    /** One Connected iteration, with what happens elsewhere before Read_Message, before the scheduler
        and while a request goes out. */
    method ConnectedIteration(c: Clock, during: Mailbox.Arrivals, w: Meanwhile)
      requires Valid()
      modifies this, shared, shared.eeprom, uart, rx, rx.cache, rx.buff
      ensures Valid()
      ensures var head := Head(old(View()), c);
              var (r, m) := Link.Hear(old(rx.View()), during);
              var d := Digest(AppRuns(head.task, w.reading), c, m);
              var o := Scheduled(AppRuns(d, w.scheduling), w.sending);
              && Did(Out(o.task, head.sent + o.sent, [], false)) && rx.View() == Settle(r, m.code)
    {
      ConnectedHead(c);
      ConnectedTail(c, during, w);
    }

    method ErrorIteration()
      requires Valid()
      modifies this
      ensures Valid() && Did(Quietly(Fail(old(View()))))
    {
      runtimeReady, extInitialized := false, false;
    }

    method StartIteration()
      requires Valid()
      modifies this
      ensures Valid() && Did(Quietly(Link.Begin(old(View()))))
    {
      runtimeReady, com, conn := false, WbmCommunicating, Init;
    }

    /** One iteration of the loop of Unit_event_task does what the state machine's iteration does. */
    method RunIteration(c: Clock, io: Io, during: Mailbox.Arrivals, w: Meanwhile)
      requires Valid()
      modifies this, shared, shared.eeprom, uart, rx, rx.cache, rx.buff, boot, boot.sendBuffer, boot.tempBuffer
      ensures Valid()
      ensures var e := Iteration(Node(old(View()), old(rx.View()), Top), c, io, during, w);
              && Node(View(), rx.View(), Top) == e.node
              && uart.requests == old(uart.requests) + e.sent && uart.chars == old(uart.chars) + e.chars
    {
      ghost var n := Node(View(), rx.View(), Top);
      match com
      case WbmInitialize =>
        StartIteration();
      case WbmCommunicating =>
        ConnectToUnit(c, io, during);
      case WbmConnected =>
        ConnectedIteration(c, during, w);
        IterationInParts(n, c, io, during, w);
      case WbmError =>
        ErrorIteration();
    }
  }

  /** A Connected iteration put together from its ticks. */
  lemma IterationInParts(n: Node, c: Clock, io: Io, during: Mailbox.Arrivals, w: Meanwhile)
    requires n.at == Top && n.task.com == WbmConnected
    ensures var head := Head(n.task, c);
            var (r, m) := Link.Hear(n.rx, during);
            var d := Digest(AppRuns(head.task, w.reading), c, m);
            var o := Scheduled(AppRuns(d, w.scheduling), w.sending);
            var e := Iteration(n, c, io, during, w);
            e.node == Node(o.task, Settle(r, m.code), Top) && e.sent == head.sent + o.sent && e.chars == []
  {
  }
}
