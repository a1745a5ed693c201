/** The unit task as values: the handshake, the Connected loop with its timers,
    the reply parsers and the priority scheduler.  One iteration of its loop is
    one of the functions Begin, Connect and Fail, or Head, Digest and Scheduled
    one after the other; the class in UnitTask.dfy performs them in place. */
module Link {
  import opened Layout
  import opened Frame
  import opened Requests
  import Bootloader
  import Mailbox

  // ---- State ----------------------------------------------------------------

  datatype Com = WbmInitialize | WbmCommunicating | WbmConnected | WbmError

  datatype Conn =
    | Init | LinkConnecting | TrySerialLink | LinkConnected
    | ReadInfo | ReadConfiguration | ReadSettingPar | ReadSetTemp | ReadDayProg | ReadHWSetting
    | AwaitPolling | Connected
    | BootloaderState | BootloaderState1 | BootloaderStateEnd

  datatype Mode = Initializing | PowerOff | Running

  /** One bit of the flag word Read_Eeprom_Request_Index: 0x1-0x8, 0x10-0x400, 0x800-0x8000. */
  datatype Job = ReadJob(k: Section) | ButtonJob(i: nat) | WriteJob(k: Section)

  /** The four change counters of the record. */
  datatype Counters = Counters(info: byte, setting: byte, settemp: byte, weekly: byte) {
    function Get(k: Section): byte {
      match k
      case Info => info
      case SettingPar => setting
      case SetTemp => settemp
      case DayProg => weekly
      case _ => 0
    }
  }

  type u32 = x: int | 0 <= x < 0x1_0000_0000

  /** The values the successive Millis() reads of one iteration return. */
  datatype Clock = Clock(debugTest: u32, debugSet: u32, pollTest: u32, pollSet: u32, lossTest: u32, stamp: u32)

  datatype Task = Task(
    com: Com,
    conn: Conn,
    retries: nat,
    found: bool,        // foundComLink
    ready: bool,        // the BLE runtime-ready flag
    mode: Mode,
    globalMs: u32,      // globalTimeoutMilliseconds
    pollMs: u32,        // PollingBase_TimerMilliseconds
    debugMs: u32,       // PollingDebugData_TimerMilliseconds
    jobs: set<Job>,     // Read_Eeprom_Request_Index
    busy: bool,         // Eeprom_Data_received
    ext: Counters,      // s_ext_cnt_*
    extInit: bool,
    mirror: Image,      // gRDEeprom
    landing: nat,       // payloads copied into it whose request bits are not up yet
    xfer: Bootloader.Transfer)

  /** What the iteration's Read_Message call left: its code, buff_ser1 and the two mode flags. */
  datatype Msg = Msg(code: int, buf: seq<byte>, boot: bool, ack: bool) {
    predicate Valid() { |buf| == BUFFER }
  }

  type Rx = rx: Mailbox.Rx | Mailbox.Sized(rx) witness Mailbox.POWER_ON

  /** A Read_Message call: the receiver after it and what the unit task sees. */
  function Hear(rx: Rx, during: Mailbox.Arrivals): (r: (Rx, Msg))
    ensures r.1.Valid()
  {
    var (r, code) := Mailbox.ReadMessage(rx, during);
    (r, Msg(code, r.buf, r.boot, r.ack))
  }

  /** No call: the unit task sees what the last one left. */
  function Recall(rx: Rx): (m: Msg)
    ensures m.Valid()
  {
    Msg(BUFFER_RX_EMPTY, rx.buf, rx.boot, rx.ack)
  }

  /** Outcome of one step: requests sent, bootloader characters sent, whether the ACK flag was
      taken down. */
  datatype Out = Out(task: Task, sent: seq<Request>, chars: seq<byte>, ackTaken: bool)

  function Quietly(t: Task): Out { Out(t, [], [], false) }

  function Sending(t: Task, q: Request): Out { Out(t, [q], [], false) }

  // ---- Timers ---------------------------------------------------------------

  const POLLING_ON_MS: nat := 1000
  const POLLING_OFF_MS: nat := 5000
  const DEBUG_MS: nat := 4000
  const TIMEOUT_MS: nat := 15000

  /** The test every timer uses: unsigned difference, or the clock being behind the stamp. */
  predicate Due(now: u32, since: u32, period: nat) {
    (now - since) % 0x1_0000_0000 >= period || now < since
  }

  function PollPeriod(m: Mode): nat {
    if m == PowerOff then POLLING_OFF_MS else POLLING_ON_MS
  }

  // ---- Parsers --------------------------------------------------------------

  /** Bytes [from, from + n) of the receive buffer, as far as it reaches. */
  function Clip(buf: seq<byte>, from: nat, n: nat): seq<byte>
    requires |buf| == BUFFER && from <= BUFFER
  {
    buf[from..if from + n <= BUFFER then from + n else BUFFER]
  }

  function MirrorCounters(m: Image): Counters {
    Counters(Counter(m, Info), Counter(m, SettingPar), Counter(m, SetTemp), Counter(m, DayProg))
  }

  function SetCounters(m: Image, c: Counters): (r: Image)
    ensures forall k: Section :: Counted(k) ==> Counter(r, k) == c.Get(k)
    ensures forall i: nat {:trigger r[i]} :: i < EEPROM_SIZE ==>
              r[i] == m[i] || (exists k: Section :: Counted(k) && i == CounterAt(k))
  {
    m[CounterAt(Info) := c.info][CounterAt(SettingPar) := c.setting][CounterAt(SetTemp) := c.settemp][CounterAt(DayProg) := c.weekly]
  }

  function PollCounters(buf: seq<byte>): Counters
    requires |buf| == BUFFER
  {
    Counters(buf[38], buf[39], buf[40], buf[41])
  }

  function AckCounters(buf: seq<byte>): Counters
    requires |buf| == BUFFER
  {
    Counters(buf[7], buf[8], buf[9], buf[10])
  }

  function Moved(a: Counters, b: Counters, k: Section): set<Job> {
    if a.Get(k) != b.Get(k) then {ReadJob(k)} else {}
  }

  /** Read requests for exactly the sections whose counters differ. */
  function Rereads(a: Counters, b: Counters): (r: set<Job>)
    ensures forall k: Section :: ReadJob(k) in r <==> Counted(k) && a.Get(k) != b.Get(k)
    ensures forall j: Job :: j in r ==> j.ReadJob?
  {
    Moved(a, b, Info) + Moved(a, b, SettingPar) + Moved(a, b, SetTemp) + Moved(a, b, DayProg)
  }

  function Seed(t: Task): Task {
    t.(ext := MirrorCounters(t.mirror), extInit := true)
  }

  function PollingParse(t: Task, buf: seq<byte>): Task
    requires |buf| == BUFFER
  {
    var s := if t.extInit then t else Seed(t);
    s.(jobs := s.jobs + Rereads(PollCounters(buf), s.ext), ext := PollCounters(buf))
  }

  function ReadParse(t: Task, buf: seq<byte>): Task
    requires |buf| == BUFFER
  {
    t.(mirror := Patch(t.mirror, buf[4], Clip(buf, 6, buf[5])))
  }

  function WriteParse(t: Task, buf: seq<byte>): Task
    requires |buf| == BUFFER
  {
    t.(jobs := t.jobs + Rereads(AckCounters(buf), MirrorCounters(t.mirror)),
       mirror := SetCounters(t.mirror, AckCounters(buf)))
  }

  // ---- Scheduler ------------------------------------------------------------

  /** The job the scheduler's chain of tests serves first, if any. */
  function Turn(jobs: set<Job>): (r: seq<Job>)
    ensures |r| <= 1
    ensures r != [] ==> r[0] in jobs
  {
    if ReadJob(Info) in jobs then [ReadJob(Info)]
    else if ReadJob(SettingPar) in jobs then [ReadJob(SettingPar)]
    else if ReadJob(SetTemp) in jobs then [ReadJob(SetTemp)]
    else if ReadJob(DayProg) in jobs then [ReadJob(DayProg)]
    else if ButtonJob(0) in jobs then [ButtonJob(0)]
    else if ButtonJob(1) in jobs then [ButtonJob(1)]
    else if ButtonJob(2) in jobs then [ButtonJob(2)]
    else if ButtonJob(3) in jobs then [ButtonJob(3)]
    else if ButtonJob(4) in jobs then [ButtonJob(4)]
    else if ButtonJob(5) in jobs then [ButtonJob(5)]
    else if WriteJob(Info) in jobs then [WriteJob(Info)]
    else if WriteJob(SettingPar) in jobs then [WriteJob(SettingPar)]
    else if WriteJob(SetTemp) in jobs then [WriteJob(SetTemp)]
    else if WriteJob(DayProg) in jobs then [WriteJob(DayProg)]
    else if WriteJob(HWSetting) in jobs then [WriteJob(HWSetting)]
    else []
  }

  /** What is written out for a job.  The button jobs have lost their requests. */
  function Wanted(j: Job, mirror: Image): (q: seq<Request>)
    ensures |q| <= 1
  {
    match j
    case ReadJob(k) => [ReadEeprom(k)]
    case ButtonJob(_) => []
    case WriteJob(k) => [WriteEeprom(k, Bytes(mirror, k))]
  }

  predicate Ready(t: Task) {
    !t.busy && Turn(t.jobs) != []
  }

  /** After the frame has gone out, which takes a tenth of a second and more, the busy flag goes up and
      the job's bit down. */
  function Cleared(t: Task, j: Job): Task {
    t.(jobs := t.jobs - {j}, busy := true)
  }

  /** The scheduler, with what the application does while the frame goes out. */
  function Scheduled(t: Task, during: seq<AppStep>): Out {
    if !Ready(t) then Quietly(t)
    else
      var j := Turn(t.jobs)[0];
      Out(Cleared(AppRuns(t, during), j), Wanted(j, t.mirror), [], false)
  }

  // ---- The Connected loop ---------------------------------------------------

  function DebugTick(t: Task, c: Clock): Out {
    if t.mode == Running && Due(c.debugTest, t.debugMs, DEBUG_MS) then
      var s := t.(busy := true, debugMs := c.debugSet, pollMs := c.debugSet, globalMs := c.debugSet);
      if t.busy then Quietly(s) else Sending(s, DataDebug)
    else Quietly(t)
  }

  function PollTick(t: Task, c: Clock): Out {
    if t.mode != Initializing && Due(c.pollTest, t.pollMs, PollPeriod(t.mode)) then
      var s := t.(busy := true, pollMs := c.pollSet, globalMs := c.pollSet);
      if t.busy then Quietly(s) else Sending(s, PollingBase)
    else Quietly(t)
  }

  function LossTest(t: Task, c: Clock): Task {
    if Due(c.lossTest, t.globalMs, TIMEOUT_MS) then
      t.(com := WbmError, retries := 0, busy := false, jobs := {}, extInit := false)
    else t
  }

  /** The part of a Connected iteration before Read_Message. */
  function Head(t: Task, c: Clock): Out {
    var d := DebugTick(t, c);
    var p := PollTick(d.task, c);
    Out(LossTest(p.task, c), d.sent + p.sent, [], false)
  }

  function Dispatch(t: Task, buf: seq<byte>): Task
    requires |buf| == BUFFER
  {
    if buf[TYPE_COMAND] == COMMAND_POLLING_BASE then PollingParse(t, buf).(busy := false)
    else if buf[TYPE_COMAND] == COMMAND_DATA_DEBUG then t.(busy := false)
    else if buf[TYPE_COMAND] == COMMAND_READ_EEPROM then ReadParse(t, buf).(busy := false)
    else if buf[TYPE_COMAND] == COMMAND_WRITE_EEPROM then WriteParse(t, buf).(busy := false)
    else t
  }

  function Digest(t: Task, c: Clock, m: Msg): Task
    requires m.Valid()
  {
    if m.code > RUN_DOWNLOAD then Dispatch(t.(globalMs := c.stamp), m.buf)
    else if m.code < 0 then t.(busy := false)
    else t
  }

  /** An error code also clears buff_ser1. */
  function Settle(rx: Rx, code: int): Rx {
    if code < 0 then rx.(buf := Blank()) else rx
  }

  // ---- Handshake ------------------------------------------------------------

  /** The section whose bytes the stage waits for. */
  function Awaited(s: Conn): Section {
    match s
    case ReadInfo => Info
    case ReadConfiguration => Configuration
    case ReadSettingPar => SettingPar
    case ReadSetTemp => SetTemp
    case ReadDayProg => DayProg
    case _ => HWSetting
  }

  predicate ReadStage(s: Conn) {
    s.ReadInfo? || s.ReadConfiguration? || s.ReadSettingPar? || s.ReadSetTemp? || s.ReadDayProg? || s.ReadHWSetting?
  }

  predicate AwaitsReply(s: Conn) {
    s == TrySerialLink || s == AwaitPolling || ReadStage(s)
  }

  function NextStage(s: Conn): Conn {
    match s
    case ReadInfo => ReadConfiguration
    case ReadConfiguration => ReadSettingPar
    case ReadSettingPar => ReadSetTemp
    case ReadSetTemp => ReadDayProg
    case ReadDayProg => ReadHWSetting
    case _ => AwaitPolling
  }

  /** What a stage asks for once its own section has come. */
  function NextAsk(s: Conn): Request {
    if ReadStage(NextStage(s)) then ReadEeprom(Awaited(NextStage(s))) else PollingBase
  }

  predicate TimedOut(t: Task, c: Clock) {
    Due(c.lossTest, t.globalMs, TIMEOUT_MS)
  }

  /** Whether this iteration of Connect_To_Unit calls Read_Message. */
  predicate Listens(t: Task, c: Clock) {
    if AwaitsReply(t.conn) then !TimedOut(t, c) else t.conn == BootloaderState1
  }

  function Listen(t: Task, c: Clock, rx: Rx, during: Mailbox.Arrivals): (r: (Rx, Msg))
    ensures r.1.Valid()
  {
    if Listens(t, c) then Hear(rx, during) else (rx, Recall(rx))
  }

  function LinkLost(t: Task): Task {
    t.(com := WbmError, retries := 0)
  }

  /** What the bootloader branch finds outside its own state: the server-update flag and the image. */
  datatype Io = Io(updating: bool, medium: Bootloader.Medium)

  function SerialTimeout(t: Task, c: Clock): Task {
    if t.retries == 2 then t.(retries := 0, conn := Init)
    else t.(globalMs := c.stamp, conn := LinkConnecting)
  }

  function SerialMessage(t: Task, m: Msg): Task {
    if m.boot then t.(conn := BootloaderState)
    else if m.code > RUN_DOWNLOAD then t.(conn := LinkConnected)
    else t
  }

  function SectionMessage(t: Task, c: Clock, m: Msg): Out
    requires m.Valid() && ReadStage(t.conn)
  {
    if m.code > RUN_DOWNLOAD then
      Sending(t.(mirror := Patch(t.mirror, Start(Awaited(t.conn)), Clip(m.buf, 6, m.buf[5])),
                 conn := NextStage(t.conn), globalMs := c.stamp),
              NextAsk(t.conn))
    else Quietly(t)
  }

  function PollingMessage(t: Task, c: Clock, m: Msg): Task {
    if m.code > RUN_DOWNLOAD then t.(conn := Connected, globalMs := c.stamp) else t
  }

  function Acknowledged(t: Task, m: Msg): Out {
    if m.ack then
      var (x, chars, last) := Bootloader.OnAck(t.xfer);
      Out(t.(xfer := x, conn := if last then BootloaderStateEnd else BootloaderState1), [], chars, true)
    else Quietly(t)
  }

  function EnterBootloader(t: Task, io: Io): Out {
    if io.updating then Quietly(t)
    else
      var (x, header) := Bootloader.Begin(t.xfer, io.medium);
      Out(t.(xfer := x, conn := if io.medium.Readable? then BootloaderState1 else BootloaderStateEnd), [], header, false)
  }

  function Connecting(t: Task, c: Clock): Task {
    t.(mode := if t.mirror[Set_Power_ON] == 0 then PowerOff else Running,
       pollMs := c.stamp, debugMs := c.stamp, com := WbmConnected, ready := true)
  }

  /** The counters are compared with the polling reply still in buff_ser1, then seeded anew. */
  function FinishConnecting(t: Task, c: Clock, buf: seq<byte>): Task
    requires |buf| == BUFFER
  {
    Seed(PollingParse(Connecting(t, c), buf))
  }

  /** The stages before anything is read. */
  function LinkStep(t: Task, c: Clock): Out {
    if t.conn == Init then Quietly(t.(globalMs := c.stamp, conn := LinkConnecting, retries := 0))
    else if t.conn == LinkConnected then
      Sending(t.(found := true, conn := ReadInfo, globalMs := c.stamp), ReadEeprom(Info))
    else if t.retries < 2 && !t.found then
      Sending(t.(retries := t.retries + 1, globalMs := c.stamp, conn := TrySerialLink), PollingBase)
    else Quietly(t.(conn := TrySerialLink))
  }

  /** The stages that wait for a reply. */
  function ReplyStep(t: Task, c: Clock, m: Msg): Out
    requires m.Valid()
  {
    if t.conn == TrySerialLink then Quietly(if TimedOut(t, c) then SerialTimeout(t, c) else SerialMessage(t, m))
    else if TimedOut(t, c) then Quietly(LinkLost(t))
    else if ReadStage(t.conn) then SectionMessage(t, c, m)
    else Quietly(PollingMessage(t, c, m))
  }

  /** The end of the handshake and the bootloader branch. */
  function RestStep(t: Task, c: Clock, m: Msg, io: Io): Out
    requires m.Valid()
  {
    if t.conn == Connected then Quietly(FinishConnecting(t, c, m.buf))
    else if t.conn == BootloaderState then EnterBootloader(t, io)
    else if t.conn == BootloaderState1 then Acknowledged(t, m)
    else Quietly(t)
  }

  function Connect(t: Task, c: Clock, m: Msg, io: Io): Out
    requires m.Valid()
  {
    if t.conn in {Init, LinkConnecting, LinkConnected} then LinkStep(t, c)
    else if AwaitsReply(t.conn) then ReplyStep(t, c, m)
    else RestStep(t, c, m, io)
  }

  // ---- The remaining loop cases ---------------------------------------------

  function Boot(mirror: Image): Task {
    Task(WbmInitialize, Init, 0, false, false, Initializing, 0, 0, 0, {}, false,
         Counters(0, 0, 0, 0), false, mirror, 0, Bootloader.NO_TRANSFER)
  }

  /** WBM_initialize. */
  function Begin(t: Task): Task {
    t.(ready := false, com := WbmCommunicating, conn := Init)
  }

  /** WBM_Error. */
  function Fail(t: Task): Task {
    t.(ready := false, extInit := false)
  }

  // ---- Payloads from the application ---------------------------------------

  const MIN_PAYLOAD: nat := 241

  const FLUSH: set<Job> := {WriteJob(Info), WriteJob(SettingPar), WriteJob(SetTemp), WriteJob(DayProg), WriteJob(HWSetting)}

  /** The record an accepted payload leaves: its bytes, zero-filled or cut to the record. */
  function PayloadImage(payload: seq<byte>): Image {
    Patch(seq(EEPROM_SIZE, _ => 0), 0, payload)
  }

  /** An application write takes two steps of another task: an accepted payload replaces the mirror,
      then it raises the five write bits.  Too short a payload does neither. */
  datatype AppStep = Copy(payload: seq<byte>) | Raise

  function AppDoes(t: Task, a: AppStep): Task {
    match a
    case Copy(payload) => if |payload| < MIN_PAYLOAD then t else t.(mirror := PayloadImage(payload), landing := t.landing + 1)
    case Raise => if t.landing == 0 then t else t.(jobs := t.jobs + FLUSH, landing := t.landing - 1)
  }

  function AppRuns(t: Task, steps: seq<AppStep>): Task
    decreases |steps|
  {
    if steps == [] then t else AppDoes(AppRuns(t, steps[..|steps| - 1]), steps[|steps| - 1])
  }

  /** What the application does at the three places of a Connected iteration where it matters. */
  datatype Meanwhile = Meanwhile(reading: seq<AppStep>, scheduling: seq<AppStep>, sending: seq<AppStep>)

  // ---- Copies out of a message ----------------------------------------------

  /** A reply's offset and count keep both memcpy calls inside their buffers. */
  predicate CopyFits(buf: seq<byte>, at: nat)
    requires |buf| == BUFFER
  {
    var n: nat := buf[5];
    at + n <= EEPROM_SIZE && 6 + n <= BUFFER
  }

  /** Inside them the model's copy is the code's: n bytes of the message, byte for byte.  Outside, and
      only there, it is cut. */
  lemma CopyExact(m: Image, buf: seq<byte>, at: nat)
    requires |buf| == BUFFER
    ensures var n: nat := buf[5];
            CopyFits(buf, at) <==> |Clip(buf, 6, n)| == n && at + n <= EEPROM_SIZE
    ensures var n: nat := buf[5];
            var r := Patch(m, at, Clip(buf, 6, n));
            CopyFits(buf, at) ==> r == m[..at] + buf[6..6 + n] + m[at + n..]
  {
    var n: nat := buf[5];
    if CopyFits(buf, at) {
      assert Clip(buf, 6, n) == buf[6..6 + n];
      assert Patch(m, at, Clip(buf, 6, n)) == m[..at] + buf[6..6 + n] + m[at + n..];
    }
  }
}
