/** The firmware side of the link as a state machine in an arbitrary
    environment: any bursts may arrive at any time, even while a message is
    being drained, the clock may read anything, and the application's tasks
    may step in wherever a Connected iteration waits, above all while a request
    goes out.  What is proved here holds in every state such a run can reach. */
module Nodes {
  import opened Layout
  import opened Frame
  import opened Requests
  import opened Link
  import Mailbox

  /** Where the unit task stands: at the head of its loop, or inside a Connected iteration before its
      Read_Message call, before its scheduler, or with a request just gone out and that job's bit
      still up. */
  datatype Point = Top | Reading | Scheduling | Clearing(j: Job)

  datatype Node = Node(task: Task, rx: Rx, at: Point)

  datatype Action =
    | Burst(bytes: seq<byte>)
    | App(a: AppStep)
    | Tick(c: Clock, io: Io, during: Mailbox.Arrivals)

  /** What one tick did besides changing the node. */
  datatype Effect = Effect(node: Node, sent: seq<Request>, chars: seq<byte>, consumed: bool, acked: bool)

  /** Whether the Connected loop took a message: a decoded reply of a kind it knows, or an error. */
  predicate Consumes(m: Msg)
    requires m.Valid()
  {
    || m.code < 0
    || (m.code > RUN_DOWNLOAD
        && m.buf[TYPE_COMAND] in {COMMAND_POLLING_BASE, COMMAND_DATA_DEBUG, COMMAND_READ_EEPROM, COMMAND_WRITE_EEPROM})
  }

  function HeadEffect(n: Node, c: Clock): Effect {
    var out := Head(n.task, c);
    Effect(Node(out.task, n.rx, Reading), out.sent, [], false, false)
  }

  function ReadEffect(n: Node, c: Clock, during: Mailbox.Arrivals): Effect {
    var (r, m) := Hear(n.rx, during);
    Effect(Node(Digest(n.task, c, m), Settle(r, m.code), Scheduling), [], [], Consumes(m), false)
  }

  function AskEffect(n: Node): Effect {
    if !Ready(n.task) then Effect(n.(at := Top), [], [], false, false)
    else
      var j := Turn(n.task.jobs)[0];
      Effect(n.(at := Clearing(j)), Wanted(j, n.task.mirror), [], false, false)
  }

  function ClearEffect(n: Node, j: Job): Effect {
    Effect(Node(Cleared(n.task, j), n.rx, Top), [], [], false, false)
  }

  /** A handshake step, given the receiver after its Read_Message call. */
  function StepEffect(n: Node, out: Out, r: Rx): Effect {
    Effect(Node(out.task, if out.ackTaken then r.(ack := false) else r, Top), out.sent, out.chars, false, out.ackTaken)
  }

  function ConnectEffect(n: Node, c: Clock, io: Io, during: Mailbox.Arrivals): Effect {
    var (r, m) := Listen(n.task, c, n.rx, during);
    StepEffect(n, Connect(n.task, c, m, io), r)
  }

  /** One part of the unit task's loop. */
  function TickEffect(n: Node, c: Clock, io: Io, during: Mailbox.Arrivals): Effect {
    match n.at
    case Reading => ReadEffect(n, c, during)
    case Scheduling => AskEffect(n)
    case Clearing(j) => ClearEffect(n, j)
    case Top =>
      match n.task.com
      case WbmInitialize => Effect(n.(task := Begin(n.task)), [], [], false, false)
      case WbmCommunicating => ConnectEffect(n, c, io, during)
      case WbmConnected => HeadEffect(n, c)
      case WbmError => Effect(n.(task := Fail(n.task)), [], [], false, false)
  }

  function Stepped(n: Node, steps: seq<AppStep>): Node {
    n.(task := AppRuns(n.task, steps))
  }

  /** One whole loop iteration: a Connected one is four ticks, with the application's steps between
      them. */
  function Iteration(n: Node, c: Clock, io: Io, during: Mailbox.Arrivals, w: Meanwhile): Effect {
    var e := TickEffect(n, c, io, during);
    if e.node.at != Reading then e
    else
      var r := TickEffect(Stepped(e.node, w.reading), c, io, during);
      var a := TickEffect(Stepped(r.node, w.scheduling), c, io, during);
      var last := if a.node.at.Clearing? then TickEffect(Stepped(a.node, w.sending), c, io, during).node else a.node;
      Effect(last, e.sent + a.sent, [], r.consumed, false)
  }

  // ---- Runs -----------------------------------------------------------------

  /** A node with the history the properties speak about. */
  datatype History = History(
    node: Node,
    log: seq<Request>,    // every request sent before the Connected loop took over
    round: nat,           // polls sent since the handshake last passed through Init
    asked: nat,           // requests the Connected loop sent
    consumed: nat,        // messages the Connected loop took
    open: seq<Request>,   // requests it sent since it last took a message
    header: seq<byte>,    // what opening the bootloader transfer sent
    blocks: seq<seq<byte>>)  // what each ACK taken was answered with

  function PowerUp(mirror: Image): History {
    History(Node(Boot(mirror), Mailbox.POWER_ON, Top), [], 0, 0, 0, [], [], [])
  }

  predicate InLoop(n: Node) {
    n.at != Top || n.task.com == WbmConnected
  }

  /** No tick both takes a message and sends. */
  function Record(h: History, e: Effect): History {
    if InLoop(h.node) then
      h.(node := e.node, asked := h.asked + |e.sent|, consumed := if e.consumed then h.consumed + 1 else h.consumed,
         open := (if e.consumed then [] else h.open) + e.sent)
    else
      h.(node := e.node, log := h.log + e.sent,
         round := if h.node.task.conn == Init then 0 else h.round + |e.sent|,
         header := if h.node.task.conn == BootloaderState then e.chars else h.header,
         blocks := if e.acked then h.blocks + [e.chars] else h.blocks)
  }

  function Next(h: History, a: Action): History {
    match a
    case Burst(bytes) => h.(node := h.node.(rx := Mailbox.Arrive(h.node.rx, bytes)))
    case App(step) => h.(node := h.node.(task := AppDoes(h.node.task, step)))
    case Tick(c, io, during) => Record(h, TickEffect(h.node, c, io, during))
  }

  function Run(h: History, actions: seq<Action>): History
    decreases |actions|
  {
    if actions == [] then h else Next(Run(h, actions[..|actions| - 1]), actions[|actions| - 1])
  }

  // ---- Invariant ------------------------------------------------------------

  const READ_ORDER: seq<Request> := [
    ReadEeprom(Info), ReadEeprom(Configuration), ReadEeprom(SettingPar), ReadEeprom(SetTemp),
    ReadEeprom(DayProg), ReadEeprom(HWSetting), PollingBase]

  /** How many of those the handshake has sent when it is in a stage. */
  function Stage(s: Conn): nat {
    match s
    case ReadInfo => 1
    case ReadConfiguration => 2
    case ReadSettingPar => 3
    case ReadSetTemp => 4
    case ReadDayProg => 5
    case ReadHWSetting => 6
    case AwaitPolling => 7
    case Connected => 7
    case _ => 0
  }

  predicate Searching(s: Conn) {
    s.Init? || s.LinkConnecting? || s.TrySerialLink?
  }

  /** Search polls first, then the stage requests in their fixed order. */
  predicate Ordered(log: seq<Request>, stage: nat) {
    && stage <= 7 && stage <= |log|
    && log[|log| - stage..] == READ_ORDER[..stage]
    && (forall i :: 0 <= i < |log| - stage ==> log[i] == PollingBase)
  }

  predicate ProperJob(j: Job) {
    (j.ReadJob? && Counted(j.k)) || (j.WriteJob? && j.k != Configuration)
  }

  /** No bit of 0x07F0 is raised: every bit names a section. */
  predicate Proper(jobs: set<Job>) {
    forall j :: j in jobs ==> ProperJob(j)
  }

  /** Which loop case may be in which connect state, and when the application may see the link. */
  predicate Phased(n: Node) {
    var t := n.task;
    && Mailbox.Sound(n.rx)
    && (n.at != Top ==> t.conn == Connected && (t.com == WbmConnected || t.com == WbmError))
    && (t.ready ==> t.com == WbmConnected || t.com == WbmError)
    && (t.com == WbmConnected ==> t.conn == Connected && t.mode != Initializing)
    && (t.com == WbmInitialize ==> t.conn == Init)
  }

  /** The search for the unit: two polls a round, no token seen yet, no ACK on the way to the
      bootloader. */
  predicate Searches(n: Node, round: nat) {
    var t := n.task;
    && t.retries <= 2
    && (Searching(t.conn) ==> !t.found && !n.rx.boot && !n.rx.ack)
    && (t.conn == BootloaderState ==> !n.rx.ack)
    && (t.conn == TrySerialLink ==> 1 <= t.retries && round == t.retries)
    && (t.conn == LinkConnecting ==> t.retries <= 1 && round == t.retries)
  }

  /** A request is on its way or unanswered. */
  predicate Outstanding(n: Node) {
    n.task.busy || n.at.Clearing?
  }

  /** The Connected loop has at most one request open, and is busy, or about to be, exactly when it has
      one. */
  predicate Exclusive(h: History) {
    var t := h.node.task;
    && Proper(t.jobs)
    && (h.node.at.Clearing? ==> ProperJob(h.node.at.j) && !t.busy)
    && (t.com == WbmInitialize || t.com == WbmCommunicating ==> !t.busy && h.open == [] && h.asked == h.consumed == 0)
    && (t.com != WbmError ==> |h.open| == (if Outstanding(h.node) then 1 else 0) && h.asked <= h.consumed + |h.open|)
  }

  predicate Sane(h: History) {
    && Phased(h.node)
    && Searches(h.node, h.round)
    && Ordered(h.log, Stage(h.node.task.conn))
    && Exclusive(h)
  }

  lemma Boots(mirror: Image)
    ensures Sane(PowerUp(mirror))
  {
  }

  // ---- Every step keeps it --------------------------------------------------

  /** Same place in the phases. */
  predicate SamePhase(a: Task, b: Task) {
    a.com == b.com && a.conn == b.conn && a.retries == b.retries && a.found == b.found && a.ready == b.ready && a.mode == b.mode
    && a.xfer == b.xfer
  }

  lemma RereadsProper(jobs: set<Job>, a: Counters, b: Counters)
    requires Proper(jobs)
    ensures Proper(jobs + Rereads(a, b))
  {
    forall j | j in jobs + Rereads(a, b)
      ensures ProperJob(j)
    {
      if j !in jobs {
        assert ReadJob(j.k) in Rereads(a, b);
      }
    }
  }

  lemma DispatchFacts(t: Task, buf: seq<byte>)
    requires |buf| == BUFFER && Proper(t.jobs)
    ensures var d := Dispatch(t, buf); SamePhase(t, d) && Proper(d.jobs)
    ensures Dispatch(t, buf).busy ==
            (t.busy && buf[TYPE_COMAND] !in {COMMAND_POLLING_BASE, COMMAND_DATA_DEBUG, COMMAND_READ_EEPROM, COMMAND_WRITE_EEPROM})
  {
    if buf[TYPE_COMAND] == COMMAND_POLLING_BASE {
      RereadsProper(t.jobs, PollCounters(buf), (if t.extInit then t else Seed(t)).ext);
    } else if buf[TYPE_COMAND] == COMMAND_WRITE_EEPROM {
      RereadsProper(t.jobs, AckCounters(buf), MirrorCounters(t.mirror));
    }
  }

  lemma DigestFacts(t: Task, c: Clock, m: Msg)
    requires m.Valid() && Proper(t.jobs)
    ensures var d := Digest(t, c, m); SamePhase(t, d) && Proper(d.jobs) && d.busy == (t.busy && !Consumes(m))
  {
    DispatchFacts(t.(globalMs := c.stamp), m.buf);
  }

  /** The four kinds of message; any other is ignored. */
  lemma DispatchIs(t: Task, buf: seq<byte>)
    requires |buf| == BUFFER
    ensures buf[TYPE_COMAND] == COMMAND_POLLING_BASE ==> Dispatch(t, buf) == PollingParse(t, buf).(busy := false)
    ensures buf[TYPE_COMAND] == COMMAND_DATA_DEBUG ==> Dispatch(t, buf) == t.(busy := false)
    ensures buf[TYPE_COMAND] == COMMAND_READ_EEPROM ==> Dispatch(t, buf) == ReadParse(t, buf).(busy := false)
    ensures buf[TYPE_COMAND] == COMMAND_WRITE_EEPROM ==> Dispatch(t, buf) == WriteParse(t, buf).(busy := false)
    ensures buf[TYPE_COMAND] !in {COMMAND_POLLING_BASE, COMMAND_DATA_DEBUG, COMMAND_READ_EEPROM, COMMAND_WRITE_EEPROM} ==> Dispatch(t, buf) == t
  {
  }

  lemma PollPhase(t: Task, buf: seq<byte>)
    requires |buf| == BUFFER
    ensures SamePhase(t, PollingParse(t, buf))
  {
  }

  lemma AckPhase(t: Task, buf: seq<byte>)
    requires |buf| == BUFFER
    ensures SamePhase(t, WriteParse(t, buf)) && SamePhase(t, ReadParse(t, buf))
  {
  }

  lemma DispatchPhase(t: Task, buf: seq<byte>)
    requires |buf| == BUFFER
    ensures SamePhase(t, Dispatch(t, buf))
  {
    DispatchIs(t, buf);
    if buf[TYPE_COMAND] == COMMAND_POLLING_BASE { PollPhase(t, buf); }
    else { AckPhase(t, buf); }
  }

  /** Taking a message leaves the phases alone. */
  lemma DigestPhase(t: Task, c: Clock, m: Msg)
    requires m.Valid()
    ensures SamePhase(t, Digest(t, c, m))
  {
    DispatchPhase(t.(globalMs := c.stamp), m.buf);
  }

  lemma AppFacts(t: Task, a: AppStep)
    ensures var u := AppDoes(t, a);
            SamePhase(t, u) && u.busy == t.busy && u.ext == t.ext && u.extInit == t.extInit && (Proper(t.jobs) ==> Proper(u.jobs))
  {
  }

  lemma {:induction false} AppRunFacts(t: Task, steps: seq<AppStep>)
    ensures var u := AppRuns(t, steps);
            SamePhase(t, u) && u.busy == t.busy && u.ext == t.ext && u.extInit == t.extInit && (Proper(t.jobs) ==> Proper(u.jobs))
    decreases |steps|
  {
    if steps != [] {
      AppRunFacts(t, steps[..|steps| - 1]);
      AppFacts(AppRuns(t, steps[..|steps| - 1]), steps[|steps| - 1]);
    }
  }

  /** A tick of a timer asks only if nothing is open, and then is busy. */
  predicate Asked(t: Task, out: Out) {
    && SamePhase(t, out.task) && out.task.jobs == t.jobs
    && (t.busy ==> out.task.busy && out.sent == [])
    && (!t.busy ==> |out.sent| == if out.task.busy then 1 else 0)
  }

  lemma DebugFacts(t: Task, c: Clock)
    ensures Asked(t, DebugTick(t, c))
  {
  }

  lemma PollFacts(t: Task, c: Clock)
    ensures Asked(t, PollTick(t, c))
  {
  }

  lemma TimerFacts(t: Task, c: Clock)
    ensures var d := DebugTick(t, c);
            var p := PollTick(d.task, c);
            Asked(t, Out(p.task, d.sent + p.sent, [], false))
  {
    DebugFacts(t, c);
    PollFacts(DebugTick(t, c).task, c);
  }

  /** The part of an iteration before Read_Message. */
  lemma HeadKeeps(h: History, c: Clock)
    requires Sane(h) && h.node.at == Top && h.node.task.com == WbmConnected
    ensures Sane(Record(h, HeadEffect(h.node, c)))
  {
    TimerFacts(h.node.task, c);
  }

  lemma ReadKeeps(h: History, c: Clock, during: Mailbox.Arrivals)
    requires Sane(h) && h.node.at == Reading
    ensures Sane(Record(h, ReadEffect(h.node, c, during)))
  {
    var (r, m) := Hear(h.node.rx, during);
    Mailbox.ReadIsSound(h.node.rx, during);
    DigestFacts(h.node.task, c, m);
  }

  lemma AskKeeps(h: History)
    requires Sane(h) && h.node.at == Scheduling
    ensures Sane(Record(h, AskEffect(h.node)))
  {
    if Ready(h.node.task) {
      assert ProperJob(Turn(h.node.task.jobs)[0]);
    }
  }

  lemma ClearKeeps(h: History, j: Job)
    requires Sane(h) && h.node.at == Clearing(j)
    ensures Sane(Record(h, ClearEffect(h.node, j)))
  {
  }

  lemma {:induction false} OrderedOneMore(log: seq<Request>, stage: nat)
    requires Ordered(log, stage) && stage < 7
    ensures Ordered(log + [READ_ORDER[stage]], stage + 1)
  {
    var next := log + [READ_ORDER[stage]];
    assert next[|next| - (stage + 1)..] == log[|log| - stage..] + [READ_ORDER[stage]];
  }

  predicate Shaking(h: History) {
    Sane(h) && h.node.at == Top && h.node.task.com == WbmCommunicating
  }

  lemma LinkKeeps(h: History, c: Clock)
    requires Shaking(h) && h.node.task.conn in {Init, LinkConnecting, LinkConnected}
    ensures Sane(Record(h, StepEffect(h.node, LinkStep(h.node.task, c), h.node.rx)))
  {
    if h.node.task.conn == LinkConnected {
      OrderedOneMore(h.log, 0);
    }
  }

  /** A step of the later stages sends nothing, or exactly the next request of the fixed order. */
  predicate Advances(t: Task, u: Task, sent: seq<Request>) {
    && SamePhase(t.(conn := u.conn, xfer := u.xfer), u) && u.busy == t.busy && u.jobs == t.jobs
    && (if sent == [] then Stage(u.conn) == Stage(t.conn)
        else Stage(t.conn) < 7 && sent == [READ_ORDER[Stage(t.conn)]] && Stage(u.conn) == Stage(t.conn) + 1)
  }

  lemma AdvanceKeeps(h: History, u: Task, r: Rx, sent: seq<Request>, chars: seq<byte>, acked: bool)
    requires Shaking(h) && Mailbox.Sound(r) && Advances(h.node.task, u, sent)
    requires !Searching(u.conn) && u.conn != BootloaderState
    ensures Sane(Record(h, Effect(Node(u, r, Top), sent, chars, false, acked)))
  {
    if sent != [] {
      OrderedOneMore(h.log, Stage(h.node.task.conn));
    }
  }

  lemma LostKeeps(h: History)
    requires Shaking(h) && AwaitsReply(h.node.task.conn) && h.node.task.conn != TrySerialLink
    ensures Sane(Record(h, StepEffect(h.node, Quietly(LinkLost(h.node.task)), h.node.rx)))
  {
  }

  lemma SerialTimeoutKeeps(h: History, c: Clock)
    requires Shaking(h) && h.node.task.conn == TrySerialLink
    ensures Sane(Record(h, StepEffect(h.node, Quietly(SerialTimeout(h.node.task, c)), h.node.rx)))
  {
  }

  lemma SerialKeeps(h: History, during: Mailbox.Arrivals)
    requires Shaking(h) && h.node.task.conn == TrySerialLink
    ensures var (r, m) := Hear(h.node.rx, during);
            Sane(Record(h, StepEffect(h.node, Quietly(SerialMessage(h.node.task, m)), r)))
  {
    Mailbox.ReadIsSound(h.node.rx, during);
  }

  lemma SectionAdvances(t: Task, c: Clock, m: Msg)
    requires m.Valid() && ReadStage(t.conn)
    ensures var out := SectionMessage(t, c, m);
            Advances(t, out.task, out.sent) && Stage(out.task.conn) > 0
  {
    NextStageAsks(t.conn);
  }

  lemma NextStageAsks(s: Conn)
    requires ReadStage(s)
    ensures 0 < Stage(s) < 7 && Stage(NextStage(s)) == Stage(s) + 1 && NextAsk(s) == READ_ORDER[Stage(s)]
  {
  }

  lemma SectionKeeps(h: History, c: Clock, during: Mailbox.Arrivals)
    requires Shaking(h) && ReadStage(h.node.task.conn)
    ensures var (r, m) := Hear(h.node.rx, during);
            Sane(Record(h, StepEffect(h.node, SectionMessage(h.node.task, c, m), r)))
  {
    var (r, m) := Hear(h.node.rx, during);
    var out := SectionMessage(h.node.task, c, m);
    Mailbox.ReadIsSound(h.node.rx, during);
    SectionAdvances(h.node.task, c, m);
    AdvanceKeeps(h, out.task, r, out.sent, out.chars, false);
  }

  lemma PollingKeeps(h: History, c: Clock, during: Mailbox.Arrivals)
    requires Shaking(h) && h.node.task.conn == AwaitPolling
    ensures var (r, m) := Hear(h.node.rx, during);
            Sane(Record(h, StepEffect(h.node, Quietly(PollingMessage(h.node.task, c, m)), r)))
  {
    var (r, m) := Hear(h.node.rx, during);
    Mailbox.ReadIsSound(h.node.rx, during);
    AdvanceKeeps(h, PollingMessage(h.node.task, c, m), r, [], [], false);
  }

  lemma FinishOutcome(t: Task, c: Clock, buf: seq<byte>)
    requires Proper(t.jobs) && |buf| == BUFFER
    ensures var u := FinishConnecting(t, c, buf);
            && SamePhase(t.(com := WbmConnected, ready := true, mode := u.mode), u)
            && u.mode != Initializing && u.busy == t.busy && Proper(u.jobs)
  {
    var s := Connecting(t, c);
    RereadsProper(s.jobs, PollCounters(buf), (if s.extInit then s else Seed(s)).ext);
  }

  lemma FinishKeeps(h: History, c: Clock, buf: seq<byte>)
    requires Shaking(h) && h.node.task.conn == Connected && |buf| == BUFFER
    ensures Sane(Record(h, StepEffect(h.node, Quietly(FinishConnecting(h.node.task, c, buf)), h.node.rx)))
  {
    FinishOutcome(h.node.task, c, buf);
    EntryKeeps(h, FinishConnecting(h.node.task, c, buf));
  }

  lemma EntryKeeps(h: History, u: Task)
    requires Shaking(h) && h.node.task.conn == Connected
    requires SamePhase(h.node.task.(com := WbmConnected, ready := true, mode := u.mode), u)
    requires u.mode != Initializing && u.busy == h.node.task.busy && Proper(u.jobs)
    ensures Sane(Record(h, StepEffect(h.node, Quietly(u), h.node.rx)))
  {
  }

  lemma EnterKeeps(h: History, io: Io)
    requires Shaking(h) && h.node.task.conn == BootloaderState
    ensures Sane(Record(h, StepEffect(h.node, EnterBootloader(h.node.task, io), h.node.rx)))
  {
    var out := EnterBootloader(h.node.task, io);
    if io.updating {
      assert out == Quietly(h.node.task);
    } else {
      AdvanceKeeps(h, out.task, h.node.rx, [], out.chars, false);
    }
  }

  lemma AckKeeps(h: History, during: Mailbox.Arrivals)
    requires Shaking(h) && h.node.task.conn == BootloaderState1
    ensures var (r, m) := Hear(h.node.rx, during);
            Sane(Record(h, StepEffect(h.node, Acknowledged(h.node.task, m), r)))
  {
    var (r, m) := Hear(h.node.rx, during);
    var out := Acknowledged(h.node.task, m);
    Mailbox.ReadIsSound(h.node.rx, during);
    AdvanceKeeps(h, out.task, if out.ackTaken then r.(ack := false) else r, out.sent, out.chars, out.ackTaken);
  }

  lemma LinkedKeeps(h: History, c: Clock, io: Io, during: Mailbox.Arrivals)
    requires Shaking(h) && h.node.task.conn in {Init, LinkConnecting, LinkConnected}
    ensures Sane(Record(h, ConnectEffect(h.node, c, io, during)))
  {
    ListenIs(h.node.task, c, h.node.rx, during);
    ConnectIs(h.node.task, c, Recall(h.node.rx), io);
    LinkKeeps(h, c);
  }

  lemma RepliedKeeps(h: History, c: Clock, io: Io, during: Mailbox.Arrivals)
    requires Shaking(h) && AwaitsReply(h.node.task.conn)
    ensures Sane(Record(h, ConnectEffect(h.node, c, io, during)))
  {
    var (r, m) := Listen(h.node.task, c, h.node.rx, during);
    ConnectIs(h.node.task, c, m, io);
    ReplyKeeps(h, c, during);
  }

  lemma ConnectKeeps(h: History, c: Clock, io: Io, during: Mailbox.Arrivals)
    requires Shaking(h)
    ensures Sane(Record(h, ConnectEffect(h.node, c, io, during)))
  {
    var conn := h.node.task.conn;
    if conn in {Init, LinkConnecting, LinkConnected} { LinkedKeeps(h, c, io, during); }
    else if AwaitsReply(conn) { RepliedKeeps(h, c, io, during); }
    else if conn == Connected { ConnectedKeeps(h, c, io, during); }
    else if conn == BootloaderState1 { AwaitingKeeps(h, c, io, during); }
    else { BootloaderKeeps(h, c, io, during); }
  }

  lemma ReplyKeeps(h: History, c: Clock, during: Mailbox.Arrivals)
    requires Shaking(h) && AwaitsReply(h.node.task.conn)
    ensures var (r, m) := Listen(h.node.task, c, h.node.rx, during);
            Sane(Record(h, StepEffect(h.node, ReplyStep(h.node.task, c, m), r)))
  {
    var conn := h.node.task.conn;
    if conn == TrySerialLink { SerialTimeoutKeeps(h, c); SerialKeeps(h, during); }
    else if TimedOut(h.node.task, c) { LostKeeps(h); }
    else if conn == AwaitPolling { PollingKeeps(h, c, during); }
    else { SectionKeeps(h, c, during); }
  }

  /** The last steps, case by case. */
  lemma RestIs(t: Task, c: Clock, m: Msg, io: Io)
    requires m.Valid()
    ensures t.conn == Connected ==> RestStep(t, c, m, io) == Quietly(FinishConnecting(t, c, m.buf))
    ensures t.conn == BootloaderState ==> RestStep(t, c, m, io) == EnterBootloader(t, io)
    ensures t.conn == BootloaderState1 ==> RestStep(t, c, m, io) == Acknowledged(t, m)
    ensures t.conn == BootloaderStateEnd ==> RestStep(t, c, m, io) == Quietly(t)
  {
  }

  lemma ConnectIs(t: Task, c: Clock, m: Msg, io: Io)
    requires m.Valid()
    ensures t.conn in {Init, LinkConnecting, LinkConnected} ==> Connect(t, c, m, io) == LinkStep(t, c)
    ensures AwaitsReply(t.conn) ==> Connect(t, c, m, io) == ReplyStep(t, c, m)
    ensures t.conn in {Connected, BootloaderState, BootloaderState1, BootloaderStateEnd} ==> Connect(t, c, m, io) == RestStep(t, c, m, io)
  {
  }

  /** Only the reply stages in time and the wait for an ACK listen. */
  lemma ListenIs(t: Task, c: Clock, rx: Rx, during: Mailbox.Arrivals)
    ensures Listens(t, c) ==> Listen(t, c, rx, during) == Hear(rx, during)
    ensures !Listens(t, c) ==> Listen(t, c, rx, during) == (rx, Recall(rx))
    ensures Listens(t, c) <==> (AwaitsReply(t.conn) && !TimedOut(t, c)) || t.conn == BootloaderState1
  {
  }

  /** The last step of the handshake. */
  lemma ConnectedKeeps(h: History, c: Clock, io: Io, during: Mailbox.Arrivals)
    requires Shaking(h) && h.node.task.conn == Connected
    ensures Sane(Record(h, ConnectEffect(h.node, c, io, during)))
  {
    var t, rx := h.node.task, h.node.rx;
    ListenIs(t, c, rx, during);
    ConnectIs(t, c, Recall(rx), io);
    RestIs(t, c, Recall(rx), io);
    FinishKeeps(h, c, rx.buf);
  }

  /** The bootloader states. */
  lemma BootloaderKeeps(h: History, c: Clock, io: Io, during: Mailbox.Arrivals)
    requires Shaking(h) && h.node.task.conn in {BootloaderState, BootloaderStateEnd}
    ensures Sane(Record(h, ConnectEffect(h.node, c, io, during)))
  {
    var t, rx := h.node.task, h.node.rx;
    ListenIs(t, c, rx, during);
    ConnectIs(t, c, Recall(rx), io);
    RestIs(t, c, Recall(rx), io);
    if t.conn == BootloaderState { EnterKeeps(h, io); } else { IdleKeeps(h); }
  }

  lemma AwaitingKeeps(h: History, c: Clock, io: Io, during: Mailbox.Arrivals)
    requires Shaking(h) && h.node.task.conn == BootloaderState1
    ensures Sane(Record(h, ConnectEffect(h.node, c, io, during)))
  {
    var t, rx := h.node.task, h.node.rx;
    var (r, m) := Hear(rx, during);
    ListenIs(t, c, rx, during);
    ConnectIs(t, c, m, io);
    RestIs(t, c, m, io);
    AckKeeps(h, during);
  }

  lemma IdleKeeps(h: History)
    requires Shaking(h) && h.node.task.conn == BootloaderStateEnd
    ensures Sane(Record(h, StepEffect(h.node, Quietly(h.node.task), h.node.rx)))
  {
    AdvanceKeeps(h, h.node.task, h.node.rx, [], [], false);
  }

  lemma NextKeeps(h: History, a: Action)
    requires Sane(h)
    ensures Sane(Next(h, a))
  {
    match a
    case Burst(bytes) =>
      Mailbox.ArriveIsSound(h.node.rx, bytes);
    case App(step) =>
      AppFacts(h.node.task, step);
    case Tick(c, io, during) =>
      if h.node.at == Reading { ReadKeeps(h, c, during); }
      else if h.node.at == Scheduling { AskKeeps(h); }
      else if h.node.at.Clearing? { ClearKeeps(h, h.node.at.j); }
      else if h.node.task.com == WbmConnected { HeadKeeps(h, c); }
      else if h.node.task.com == WbmCommunicating { ConnectKeeps(h, c, io, during); }
  }

  /** Whatever the environment does, every state after power-up is sane. */
  lemma {:induction false} AlwaysSane(mirror: Image, actions: seq<Action>)
    ensures Sane(Run(PowerUp(mirror), actions))
    decreases |actions|
  {
    if actions == [] {
      Boots(mirror);
    } else {
      var last := |actions| - 1;
      AlwaysSane(mirror, actions[..last]);
      NextKeeps(Run(PowerUp(mirror), actions[..last]), actions[last]);
    }
  }

  // ---- What follows for every run -------------------------------------------

  /** Half duplex: in every state of the Connected loop at most one request is open, and one is exactly
      if the loop is busy or has just written it out; then the next tick sends nothing, and otherwise
      at most one. */
  lemma OneRequestOutstanding(mirror: Image, actions: seq<Action>, c: Clock, io: Io, during: Mailbox.Arrivals)
    requires Run(PowerUp(mirror), actions).node.task.com == WbmConnected
    ensures var h := Run(PowerUp(mirror), actions);
            var e := TickEffect(h.node, c, io, during);
            && |h.open| <= 1 && (Outstanding(h.node) <==> h.open != [])
            && h.asked <= h.consumed + 1
            && (h.open != [] ==> e.sent == [])
            && |e.sent| <= 1
  {
    AlwaysSane(mirror, actions);
    SendsOnlyWhenFree(Run(PowerUp(mirror), actions), c, io, during);
  }

  lemma SendsOnlyWhenFree(h: History, c: Clock, io: Io, during: Mailbox.Arrivals)
    requires Sane(h) && h.node.task.com == WbmConnected
    ensures var sent := TickEffect(h.node, c, io, during).sent;
            |sent| <= 1 && (Outstanding(h.node) ==> sent == [])
  {
    if h.node.at == Top {
      TimerFacts(h.node.task, c);
    }
  }

  /** The request a section's bit stands for. */
  function Asks(j: Job, mirror: Image): Request
    requires !j.ButtonJob?
  {
    match j
    case ReadJob(k) => ReadEeprom(k)
    case WriteJob(k) => WriteEeprom(k, Bytes(mirror, k))
  }

  /** At the scheduler of every reachable state that is not busy, a pending bit's request goes out, and
      when that is done just this bit comes down. */
  lemma PendingIsServed(mirror: Image, actions: seq<Action>, c: Clock, io: Io, during: Mailbox.Arrivals)
    requires var n := Run(PowerUp(mirror), actions).node;
             n.at == Scheduling && n.task.jobs != {} && !n.task.busy
    ensures var n := Run(PowerUp(mirror), actions).node;
            var e := TickEffect(n, c, io, during);
            exists j ::
              && j in n.task.jobs && !j.ButtonJob? && e.node.at == Clearing(j) && e.sent == [Asks(j, n.task.mirror)]
              && forall steps :: var f := TickEffect(Stepped(e.node, steps), c, io, during);
                   f.node.at == Top && f.node.task.busy && f.node.task.jobs == AppRuns(n.task, steps).jobs - {j}
  {
    AlwaysSane(mirror, actions);
    ProperIsServed(Run(PowerUp(mirror), actions).node, c, io, during);
  }

  lemma ProperIsServed(n: Node, c: Clock, io: Io, during: Mailbox.Arrivals)
    requires Proper(n.task.jobs) && n.at == Scheduling && n.task.jobs != {} && !n.task.busy
    ensures var e := TickEffect(n, c, io, during);
            exists j ::
              && j in n.task.jobs && !j.ButtonJob? && e.node.at == Clearing(j) && e.sent == [Asks(j, n.task.mirror)]
              && forall steps :: var f := TickEffect(Stepped(e.node, steps), c, io, during);
                   f.node.at == Top && f.node.task.busy && f.node.task.jobs == AppRuns(n.task, steps).jobs - {j}
  {
    var i :| i in n.task.jobs;
    assert ProperJob(i);
    assert Turn(n.task.jobs) != [];
    var j := Turn(n.task.jobs)[0];
    assert ProperJob(j);
    var e := TickEffect(n, c, io, during);
    assert e.node == n.(at := Clearing(j)) && e.sent == [Asks(j, n.task.mirror)];
    forall steps
      ensures var f := TickEffect(Stepped(e.node, steps), c, io, during);
              f.node.at == Top && f.node.task.busy && f.node.task.jobs == AppRuns(n.task, steps).jobs - {j}
    {
      assert Stepped(e.node, steps).at == Clearing(j);
    }
  }

  /** The price of taking the bit down last: a payload that raises the five bits while a section write
      goes out loses that section's.  What is on the wire is the section as it was. */
  lemma RaisedInWindow(n: Node, k: Section, payload: seq<byte>, c: Clock, io: Io, during: Mailbox.Arrivals)
    requires n.at == Clearing(WriteJob(k)) && k != Configuration && |payload| >= MIN_PAYLOAD
    ensures var f := TickEffect(Stepped(n, [Copy(payload), Raise]), c, io, during).node;
            && f.task.mirror == PayloadImage(payload) && WriteJob(k) !in f.task.jobs
            && forall j :: j in FLUSH && j != WriteJob(k) ==> j in f.task.jobs
  {
    assert [Copy(payload), Raise][..1] == [Copy(payload)];
    assert [Copy(payload)][..0] == [];
    assert AppRuns(n.task, []) == n.task;
    assert AppRuns(n.task, [Copy(payload)]) == AppDoes(n.task, Copy(payload));
    assert AppRuns(n.task, [Copy(payload), Raise]) == AppDoes(AppDoes(n.task, Copy(payload)), Raise);
  }

  /** Every request bit of every reachable state names a section that is read or written. */
  lemma NoButtonJobs(mirror: Image, actions: seq<Action>, i: nat)
    ensures ButtonJob(i) !in Run(PowerUp(mirror), actions).node.task.jobs
  {
    AlwaysSane(mirror, actions);
    assert !ProperJob(ButtonJob(i));
  }

  /** The application sees the link as ready only in the Connected loop or in WBM_Error, and the
      first iteration in WBM_Error takes that back. */
  lemma ReadyMeansConnected(mirror: Image, actions: seq<Action>, c: Clock, io: Io, during: Mailbox.Arrivals)
    requires Run(PowerUp(mirror), actions).node.task.ready
    ensures var n := Run(PowerUp(mirror), actions).node;
            && n.task.com in {WbmConnected, WbmError}
            && (n.task.com == WbmError && n.at == Top ==> !TickEffect(n, c, io, during).node.task.ready)
  {
    AlwaysSane(mirror, actions);
  }

  /** At most two polls are sent in a search round, and a round that gives up sent exactly two. */
  lemma SearchRounds(mirror: Image, actions: seq<Action>, c: Clock, io: Io, during: Mailbox.Arrivals)
    ensures var h := Run(PowerUp(mirror), actions);
            && h.node.task.retries <= 2
            && (h.node.task.conn == TrySerialLink && TickEffect(h.node, c, io, during).node.task.conn == Init ==> h.round == 2)
  {
    AlwaysSane(mirror, actions);
  }

  /** The first bootloader block waits for an ACK that came after the header was sent. */
  lemma BootloaderEntry(mirror: Image, actions: seq<Action>, c: Clock, io: Io, during: Mailbox.Arrivals)
    ensures var n := Run(PowerUp(mirror), actions).node;
            n.task.conn == BootloaderState && n.task.com == WbmCommunicating && n.at == Top ==> !TickEffect(n, c, io, during).node.rx.ack
  {
    AlwaysSane(mirror, actions);
  }

  lemma OrderedComplete(log: seq<Request>)
    requires Ordered(log, 7)
    ensures log == seq(|log| - 7, _ => PollingBase) + READ_ORDER
  {
    assert log == log[..|log| - 7] + log[|log| - 7..];
    assert log[..|log| - 7] == seq(|log| - 7, _ => PollingBase);
  }

  lemma SaneOrder(h: History)
    requires Sane(h) && h.node.task.com == WbmConnected
    ensures |h.log| >= 7 && h.log == seq(|h.log| - 7, _ => PollingBase) + READ_ORDER
  {
    OrderedComplete(h.log);
  }

  /** Before the Connected loop starts, the link has seen search polls, then the six section reads
      and one poll in their fixed order, and nothing else. */
  lemma HandshakeOrder(mirror: Image, actions: seq<Action>)
    requires Run(PowerUp(mirror), actions).node.task.com == WbmConnected
    ensures var log := Run(PowerUp(mirror), actions).log;
            |log| >= 7 && log == seq(|log| - 7, _ => PollingBase) + READ_ORDER
  {
    AlwaysSane(mirror, actions);
    SaneOrder(Run(PowerUp(mirror), actions));
  }

  lemma {:induction false} LogGrows(h: History, actions: seq<Action>)
    ensures h.log <= Run(h, actions).log
    decreases |actions|
  {
    if actions != [] {
      LogGrows(h, actions[..|actions| - 1]);
    }
  }

  lemma OrderedLater(early: seq<Request>, m: nat, late: seq<Request>, n: nat)
    requires Ordered(early, m) && Ordered(late, n) && early <= late && m > 0
    ensures m <= n
  {
    assert late[|early| - m] == early[|early| - m..][0] == READ_ORDER[..m][0];
  }

  lemma {:induction false} RunFurther(h: History, first: seq<Action>, rest: seq<Action>)
    ensures Run(Run(h, first), rest) == Run(h, first + rest)
    decreases |rest|
  {
    if rest == [] {
      assert first + rest == first;
    } else {
      var last := |rest| - 1;
      assert (first + rest)[..|first + rest| - 1] == first + rest[..last];
      RunFurther(h, first, rest[..last]);
    }
  }

  /** Once a stage has been reached no history leads back to an earlier one. */
  lemma NoStageRevisited(mirror: Image, actions: seq<Action>, more: seq<Action>)
    requires Stage(Run(PowerUp(mirror), actions).node.task.conn) > 0
    ensures Stage(Run(PowerUp(mirror), actions + more).node.task.conn) >= Stage(Run(PowerUp(mirror), actions).node.task.conn)
  {
    var early, late := Run(PowerUp(mirror), actions), Run(PowerUp(mirror), actions + more);
    AlwaysSane(mirror, actions);
    AlwaysSane(mirror, actions + more);
    RunFurther(PowerUp(mirror), actions, more);
    LogGrows(early, more);
    OrderedLater(early.log, Stage(early.node.task.conn), late.log, Stage(late.node.task.conn));
  }

  /** WBM_Error at the loop head is final: no history leads out of it, nothing is sent any more, and
      from the next iteration on the link is not ready. */
  lemma {:induction false} ErrorIsFinal(h: History, actions: seq<Action>)
    requires h.node.task.com == WbmError && h.node.at == Top
    ensures var g := Run(h, actions);
            && g.node.task.com == WbmError && g.node.at == Top
            && g.log == h.log && g.asked == h.asked
            && ((exists i :: 0 <= i < |actions| && actions[i].Tick?) ==> !g.node.task.ready)
    decreases |actions|
  {
    if actions != [] {
      ErrorIsFinal(h, actions[..|actions| - 1]);
      ErrorStep(Run(h, actions[..|actions| - 1]), actions[|actions| - 1]);
    }
  }

  lemma ErrorStep(h: History, a: Action)
    requires h.node.task.com == WbmError && h.node.at == Top
    ensures var g := Next(h, a);
            && g.node.task.com == WbmError && g.node.at == Top && g.log == h.log && g.asked == h.asked
            && (a.Tick? ==> !g.node.task.ready) && (!h.node.task.ready ==> !g.node.task.ready)
  {
  }
}
