/** What single ticks of the firmware do, in the terms of the wire, the request
    word and the clock: the decisions the state machine's runs are made of. */
module Ticks {
  import opened Layout
  import opened Frame
  import opened Requests
  import opened Link
  import opened Nodes
  import FlagWord
  import Mailbox
  import Timers
  import Bootloader

  predicate InHandshake(n: Node, conn: Conn) {
    n.at == Top && n.task.com == WbmCommunicating && n.task.conn == conn
  }

  /** Less than 15 s after the stage's timer was set, on the same turn of the clock. */
  predicate InTime(n: Node, c: Clock) {
    n.task.globalMs <= c.lossTest < n.task.globalMs + 15000
  }

  // ---- The search -----------------------------------------------------------

  /** What the search makes of a burst it takes: the bootloader's call first, whatever the checks would
      have said of it; then anything Read_Message accepts; an error leaves it searching. */
  lemma SearchDecides(n: Node, c: Clock, io: Io, f: seq<byte>)
    requires InHandshake(n, TrySerialLink) && InTime(n, c) && Mailbox.Claimed(n.rx, f)
    ensures TickEffect(n, c, io, map[]).node.task.conn ==
            if n.rx.boot || Contains(CString(Padded(f)), BOOTLOADER) then BootloaderState
            else if Contains(CString(Padded(f)), ACK) || IsFrame(f) then LinkConnected
            else TrySerialLink
  {
    var t := n.task;
    var (r, m) := Hear(n.rx, map[]);
    Mailbox.ReadClaimed(n.rx, f);
    VerifyAcceptsFrames(f);
    TokensAreLong(f);
    ListenIs(t, c, n.rx, map[]);
    ConnectIs(t, c, m, io);
    assert ReplyStep(t, c, m) == Quietly(SerialMessage(t, m));
  }

  lemma TokensAreLong(f: seq<byte>)
    requires 0 < |f| < BUFFER
    ensures HasToken(Padded(f)) ==> |f| >= 3
  {
    Mailbox.CStringStops(Padded(f), |f|);
  }

  /** When a reply stage's time is up, on true times: 15 s after its timer was set, or when the clock has
      wrapped since.  The search then polls again or, after the second poll, starts over; any later
      stage gives the link up. */
  lemma StageTimeout(n: Node, c: Clock, io: Io, since: nat, now: nat)
    requires n.at == Top && n.task.com == WbmCommunicating && AwaitsReply(n.task.conn)
    requires since <= now < since + Timers.TURN && n.task.globalMs == Timers.Wrap(since) && c.lossTest == Timers.Wrap(now)
    requires now - since >= 15000 || !Timers.SameTurn(since, now)
    ensures var u := TickEffect(n, c, io, map[]).node.task;
            if n.task.conn != TrySerialLink then u.com == WbmError && u.conn == n.task.conn
            else u.com == WbmCommunicating && u.conn == if n.task.retries == 2 then Init else LinkConnecting
    ensures TickEffect(n, c, io, map[]).sent == [] && TickEffect(n, c, io, map[]).node.rx == n.rx
  {
    Timers.DueExactly(since, now, TIMEOUT_MS);
    ListenIs(n.task, c, n.rx, map[]);
    ConnectIs(n.task, c, Recall(n.rx), io);
  }

  /** Before that it listens, and without a message stays where it is. */
  lemma StageWaits(n: Node, c: Clock, io: Io, since: nat, now: nat)
    requires n.at == Top && n.task.com == WbmCommunicating && AwaitsReply(n.task.conn) && !n.rx.boot && Mailbox.Idle(n.rx)
    requires since <= now < since + 15000 && Timers.SameTurn(since, now)
    requires n.task.globalMs == Timers.Wrap(since) && c.lossTest == Timers.Wrap(now)
    ensures TickEffect(n, c, io, map[]).node.task == n.task && TickEffect(n, c, io, map[]).sent == []
  {
    var t := n.task;
    var (r, m) := Hear(n.rx, map[]);
    Timers.DueExactly(since, now, TIMEOUT_MS);
    Mailbox.ReadIdle(n.rx, map[]);
    ListenIs(t, c, n.rx, map[]);
    ConnectIs(t, c, m, io);
  }

  /** Every request of the handshake starts its stage's timer. */
  lemma RequestsStartTimer(n: Node, c: Clock, io: Io, during: Mailbox.Arrivals)
    requires n.at == Top && n.task.com == WbmCommunicating && TickEffect(n, c, io, during).sent != []
    ensures TickEffect(n, c, io, during).node.task.globalMs == c.stamp
    ensures AwaitsReply(TickEffect(n, c, io, during).node.task.conn)
  {
    var t := n.task;
    var (r, m) := Listen(t, c, n.rx, during);
    ConnectIs(t, c, m, io);
    RestIs(t, c, m, io);
    if ReadStage(t.conn) {
      NextStageAsks(t.conn);
    }
  }

  // ---- The end of the handshake ---------------------------------------------

  /** Where a polling reply carries the counter of a section. */
  function PolledAt(k: Section): nat
    requires Counted(k)
  {
    match k
    case Info => 38
    case SettingPar => 39
    case SetTemp => 40
    case DayProg => 41
  }

  /** The last tick of the handshake, with the poll's reply in the message buffer: the read bit of a
      counted section goes up exactly if its polled counter is not the one recorded, or the mirror's
      where none was; no other bit changes; the mirror's counters are recorded, the mode follows the
      mirror's power byte, and both loop timers start. */
  lemma HandshakeEnds(n: Node, c: Clock, io: Io)
    requires InHandshake(n, Connected) && |n.rx.buf| == BUFFER
    ensures var t, u := n.task, TickEffect(n, c, io, map[]).node.task;
            && u.com == WbmConnected && u.ready && u.mirror == t.mirror
            && (forall k: Section :: Counted(k) ==>
                  (ReadJob(k) in u.jobs <==>
                     ReadJob(k) in t.jobs || n.rx.buf[PolledAt(k)] != if t.extInit then t.ext.Get(k) else t.mirror[CounterAt(k)]))
            && (forall j: Job :: !j.ReadJob? || !Counted(j.k) ==> (j in u.jobs <==> j in t.jobs))
            && (forall k: Section :: Counted(k) ==> u.ext.Get(k) == t.mirror[CounterAt(k)])
            && u.mode == (if t.mirror[76] == 0 then PowerOff else Running)
            && u.pollMs == c.stamp && u.debugMs == c.stamp
  {
    var t, buf := n.task, n.rx.buf;
    ListenIs(t, c, n.rx, map[]);
    ConnectIs(t, c, Recall(n.rx), io);
    RestIs(t, c, Recall(n.rx), io);
    EndRaises(t, c, buf);
  }

  lemma EndRaises(t: Task, c: Clock, buf: seq<byte>)
    requires |buf| == BUFFER
    ensures var u := FinishConnecting(t, c, buf);
            && u.com == WbmConnected && u.ready && u.mirror == t.mirror && u.ext == MirrorCounters(t.mirror)
            && u.jobs == t.jobs + Rereads(PollCounters(buf), if t.extInit then t.ext else MirrorCounters(t.mirror))
            && u.mode == (if t.mirror[76] == 0 then PowerOff else Running)
            && u.pollMs == c.stamp && u.debugMs == c.stamp
  {
  }

  // ---- The bootloader -------------------------------------------------------

  /** Opening the transfer: not while the server's update runs; otherwise fourteen characters go out, the
      image's size and first word, or zeros where there is none, and only then does it wait for ACKs. */
  lemma BootloaderOpens(n: Node, c: Clock, io: Io)
    requires InHandshake(n, BootloaderState)
    ensures var e := TickEffect(n, c, io, map[]);
            if io.updating then e.node == n && e.chars == []
            else if io.medium.Readable? then
              && e.node.task.conn == BootloaderState1 && |e.chars| == 14 && e.node.task.xfer.file == io.medium.content
              && Bootloader.SizeIn(e.chars) == |io.medium.content| % 0x100_0000
            else e.node.task.conn == BootloaderStateEnd && e.chars == seq(14, _ => 48)
  {
    var t := n.task;
    ListenIs(t, c, n.rx, map[]);
    ConnectIs(t, c, Recall(n.rx), io);
    RestIs(t, c, Recall(n.rx), io);
    if !io.updating && io.medium.Readable? {
      Bootloader.TransferHeader(io.medium.content, t.xfer);
    } else {
      Bootloader.NoSize();
    }
  }

  // ---- The scheduler --------------------------------------------------------

  /** The masks as numbers. */
  function Bit(j: Job): nat {
    match j
    case ReadJob(Info) => 0x1
    case ReadJob(SettingPar) => 0x2
    case ReadJob(SetTemp) => 0x4
    case ReadJob(DayProg) => 0x8
    case ButtonJob(i) => if i == 0 then 0x10 else if i == 1 then 0x20 else if i == 2 then 0x40 else if i == 3 then 0x80
                         else if i == 4 then 0x100 else if i == 5 then 0x200 else 0
    case WriteJob(Info) => 0x800
    case WriteJob(SettingPar) => 0x1000
    case WriteJob(SetTemp) => 0x2000
    case WriteJob(DayProg) => 0x4000
    case WriteJob(HWSetting) => 0x8000
    case _ => 0
  }

  lemma MaskIsBit(j: Job)
    ensures FlagWord.Mask(j) as int == Bit(j)
  {
  }

  lemma TurnIsLowest(jobs: set<Job>, i: Job)
    requires Turn(jobs) != [] && i in jobs && Bit(i) != 0
    ensures 0 < Bit(Turn(jobs)[0]) <= Bit(i)
  {
  }

  /** Priority: in every reachable state the request that goes out is that of the lowest bit up. */
  lemma LowestFirst(mirror: Image, actions: seq<Action>, c: Clock, io: Io, during: Mailbox.Arrivals, i: Job)
    requires var n := Run(PowerUp(mirror), actions).node; n.at == Scheduling && i in n.task.jobs
    ensures var n := Run(PowerUp(mirror), actions).node;
            var at := TickEffect(n, c, io, during).node.at;
            at.Clearing? ==> at.j in n.task.jobs && 0 < FlagWord.Mask(at.j) as int <= FlagWord.Mask(i) as int
  {
    AlwaysSane(mirror, actions);
    LowestServed(Run(PowerUp(mirror), actions).node, c, io, during, i);
  }

  lemma LowestServed(n: Node, c: Clock, io: Io, during: Mailbox.Arrivals, i: Job)
    requires Proper(n.task.jobs) && n.at == Scheduling && i in n.task.jobs
    ensures var at := TickEffect(n, c, io, during).node.at;
            at.Clearing? ==> at.j in n.task.jobs && 0 < FlagWord.Mask(at.j) as int <= FlagWord.Mask(i) as int
  {
    assert ProperJob(i);
    if Ready(n.task) {
      TurnIsLowest(n.task.jobs, i);
      MaskIsBit(i);
      MaskIsBit(Turn(n.task.jobs)[0]);
    }
  }

  /** The bits a payload raises and the bits of the reads, as the code's masks. */
  lemma WordMasks()
    ensures FlagWord.Mask(WriteJob(Info)) | FlagWord.Mask(WriteJob(SettingPar)) | FlagWord.Mask(WriteJob(SetTemp))
          | FlagWord.Mask(WriteJob(DayProg)) | FlagWord.Mask(WriteJob(HWSetting)) == 0xF800
    ensures FlagWord.Mask(ReadJob(Info)) | FlagWord.Mask(ReadJob(SettingPar)) | FlagWord.Mask(ReadJob(SetTemp))
          | FlagWord.Mask(ReadJob(DayProg)) == 0x000F
  {
  }

  // ---- Messages -------------------------------------------------------------

  /** At the Read_Message of a Connected iteration with a burst claimed that is taken for a message. */
  predicate Takes(n: Node, f: seq<byte>) {
    n.at == Reading && Mailbox.Claimed(n.rx, f) && Judge(Padded(f), |f|) > RUN_DOWNLOAD
  }

  lemma Taken(n: Node, c: Clock, io: Io, f: seq<byte>)
    requires Takes(n, f)
    ensures TickEffect(n, c, io, map[]).node.task == Dispatch(n.task.(globalMs := c.stamp), Padded(f))
  {
    Mailbox.ReadClaimed(n.rx, f);
  }

  /** A polling reply ('P'): the read bit of a counted section goes up exactly if its counter has moved since
      the last polling reply, or since the mirror took it over where there was none; the mirror stays. */
  lemma PollTaken(n: Node, c: Clock, io: Io, f: seq<byte>)
    requires Takes(n, f) && Padded(f)[3] == 80
    ensures var t, u := n.task, TickEffect(n, c, io, map[]).node.task;
            && !u.busy && u.globalMs == c.stamp && u.mirror == t.mirror && u.extInit
            && (forall k: Section :: Counted(k) ==>
                  && u.ext.Get(k) == Padded(f)[PolledAt(k)]
                  && (ReadJob(k) in u.jobs <==>
                        ReadJob(k) in t.jobs || Padded(f)[PolledAt(k)] != if t.extInit then t.ext.Get(k) else t.mirror[CounterAt(k)]))
            && (forall j: Job :: !j.ReadJob? || !Counted(j.k) ==> (j in u.jobs <==> j in t.jobs))
  {
    var t, buf := n.task.(globalMs := c.stamp), Padded(f);
    Taken(n, c, io, f);
    DispatchIs(t, buf);
    PollRaises(t, buf);
  }

  lemma PollRaises(t: Task, buf: seq<byte>)
    requires |buf| == BUFFER
    ensures var u := PollingParse(t, buf);
            && u.mirror == t.mirror && u.extInit && u.globalMs == t.globalMs && u.ext == PollCounters(buf)
            && u.jobs == t.jobs + Rereads(PollCounters(buf), if t.extInit then t.ext else MirrorCounters(t.mirror))
  {
  }

  /** A section reply ('R'): as many bytes as it says, from byte 6 on, at the offset it says; no bit changes. */
  lemma SectionTaken(n: Node, c: Clock, io: Io, f: seq<byte>, i: nat)
    requires Takes(n, f) && Padded(f)[3] == 82 && i < EEPROM_SIZE && CopyFits(Padded(f), Padded(f)[4])
    ensures var t, u, buf := n.task, TickEffect(n, c, io, map[]).node.task, Padded(f);
            && u == t.(mirror := u.mirror, busy := false, globalMs := c.stamp)
            && u.mirror[i] == if buf[4] <= i < buf[4] + buf[5] then buf[6 + i - buf[4]] else t.mirror[i]
  {
    var t, buf := n.task.(globalMs := c.stamp), Padded(f);
    Taken(n, c, io, f);
    DispatchIs(t, buf);
    CopyExact(t.mirror, buf, buf[4]);
  }

  /** Where a write acknowledgement carries the counter of a section. */
  function AckedAt(k: Section): nat
    requires Counted(k)
  {
    match k
    case Info => 7
    case SettingPar => 8
    case SetTemp => 9
    case DayProg => 10
  }

  /** A write acknowledgement ('W'): a section whose counter is not the mirror's is to be read again, and its
      counter byte, but nothing else, is taken over. */
  lemma AckTaken(n: Node, c: Clock, io: Io, f: seq<byte>)
    requires Takes(n, f) && Padded(f)[3] == 87
    ensures var t, u := n.task, TickEffect(n, c, io, map[]).node.task;
            && u == t.(mirror := u.mirror, jobs := u.jobs, busy := false, globalMs := c.stamp)
            && (forall k: Section :: Counted(k) ==>
                  && u.mirror[CounterAt(k)] == Padded(f)[AckedAt(k)]
                  && (ReadJob(k) in u.jobs <==> ReadJob(k) in t.jobs || Padded(f)[AckedAt(k)] != t.mirror[CounterAt(k)]))
            && (forall j: Job :: !j.ReadJob? || !Counted(j.k) ==> (j in u.jobs <==> j in t.jobs))
            && (forall i: nat {:trigger u.mirror[i]} :: i < EEPROM_SIZE && i !in {58, 128, 154, 239} ==> u.mirror[i] == t.mirror[i])
  {
    var t, buf := n.task.(globalMs := c.stamp), Padded(f);
    Taken(n, c, io, f);
    DispatchIs(t, buf);
    AckStores(n.task.mirror, buf);
  }

  lemma AckStores(m: Image, buf: seq<byte>)
    requires |buf| == BUFFER
    ensures var r := SetCounters(m, AckCounters(buf));
            && (forall k: Section :: Counted(k) ==> r[CounterAt(k)] == buf[AckedAt(k)] == AckCounters(buf).Get(k))
            && (forall i: nat {:trigger r[i]} :: i < EEPROM_SIZE && i !in {58, 128, 154, 239} ==> r[i] == m[i])
  {
  }

  /** A debug reply ('D') only frees the loop; a message of another kind does not even that. */
  lemma OtherTaken(n: Node, c: Clock, io: Io, f: seq<byte>)
    requires Takes(n, f) && Padded(f)[3] !in {80, 82, 87}
    ensures TickEffect(n, c, io, map[]).node.task == n.task.(globalMs := c.stamp, busy := Padded(f)[3] != 68 && n.task.busy)
  {
    var t, buf := n.task.(globalMs := c.stamp), Padded(f);
    Taken(n, c, io, f);
    DispatchIs(t, buf);
  }

  // ---- Errors and link loss -------------------------------------------------

  /** An error empties the message buffer and frees the loop, and changes nothing else. */
  lemma ErrorClears(n: Node, c: Clock, io: Io, f: seq<byte>)
    requires n.at == Reading && Mailbox.Claimed(n.rx, f) && Judge(Padded(f), |f|) < 0
    ensures var m := TickEffect(n, c, io, map[]).node;
            && m.task == n.task.(busy := false) && Mailbox.Idle(m.rx)
            && forall i :: 0 <= i < BUFFER ==> m.rx.buf[i] == 0
  {
    Mailbox.ReadClaimed(n.rx, f);
  }

  /** Giving the link up forgets all that was pending. */
  lemma LossForgets(n: Node, c: Clock, io: Io, during: Mailbox.Arrivals)
    requires n.at == Top && n.task.com == WbmConnected
    ensures var u := TickEffect(n, c, io, during).node.task;
            u.com == WbmError ==> u.jobs == {} && !u.busy && !u.extInit && u.mirror == n.task.mirror
  {
    TimerFacts(n.task, c);
  }
}
