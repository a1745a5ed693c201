/** Runs that show what the coherence theorem has to leave out.  Both start at
    power-up, are legal throughout, and contain a single event of the kind the
    theorem excludes: after it a section differs from the unit's with nothing
    under way to repair it. */
module Witness {
  import opened Layout
  import opened Frame
  import opened Requests
  import opened Link
  import opened Nodes
  import opened Systems
  import opened Coherence
  import opened Handshake
  import opened Runs
  import Mailbox
  import Bootloader

  // ---- Reachability ---------------------------------------------------------

  /** A legal run with no unsafe event leads from a to b. */
  ghost predicate Reaches(a: System, b: System) {
    exists run :: Legal(a, run) && Guarded(a, run) && After(a, run) == b
  }

  lemma {:induction false} OneMore(a: System, run: seq<Event>, e: Event)
    requires Legal(a, run) && Guarded(a, run) && Enabled(After(a, run), e) && Safe(After(a, run), e)
    ensures Legal(a, run + [e]) && Guarded(a, run + [e]) && After(a, run + [e]) == Step(After(a, run), e)
    decreases |run|
  {
    if run == [] {
      var n := Step(a, e);
      assert [] + [e] == [e] && [e][1..] == [];
      assert Legal(n, []) && Guarded(n, []) && After(n, []) == n;
    } else {
      assert (run + [e])[0] == run[0] && (run + [e])[1..] == run[1..] + [e];
      OneMore(Step(a, run[0]), run[1..], e);
    }
  }

  lemma Reach(a: System, b: System, e: Event)
    requires Reaches(a, b) && Enabled(b, e) && Safe(b, e)
    ensures Reaches(a, Step(b, e))
  {
    var run :| Legal(a, run) && Guarded(a, run) && After(a, run) == b;
    OneMore(a, run, e);
  }

  lemma ReachSelf(a: System)
    ensures Reaches(a, a)
  {
    assert Legal(a, []) && Guarded(a, []) && After(a, []) == a;
  }

  // ---- Frames the unit can answer with --------------------------------------

  function FrameOf(command: byte, body: seq<byte>): seq<byte>
    requires |body| <= 121
  {
    Transmitted(Padded([0, 0, 4 + |body|, command] + body))
  }

  lemma FrameOfIs(command: byte, body: seq<byte>)
    requires |body| <= 121
    ensures var f := FrameOf(command, body);
            IsFrame(f) && |f| == 6 + |body| && f[TYPE_COMAND] == command && f[4..4 + |body|] == body
  {
    var head := [0, 0, 4 + |body|, command] + body;
    var b := Padded(head);
    assert b[..|head|] == head;
    SealedIsFrame(b);
    var f := Transmitted(b);
    var p := 4 + |body|;
    assert f[3..p] == b[3..p];
    assert f[3] == f[3..p][0] && f[4..p] == f[3..p][1..] && b[4..p] == b[3..p][1..];
    assert b[4..p] == head[4..] == body;
  }

  function CounterBytes(m: Image): (s: seq<byte>)
    ensures |s| == 4
  {
    [Counter(m, Info), Counter(m, SettingPar), Counter(m, SetTemp), Counter(m, DayProg)]
  }

  function Nothing(n: nat): (s: seq<byte>)
    ensures |s| == n
  {
    seq(n, _ => 0)
  }

  function PollReply(m: Image): seq<byte> {
    FrameOf(COMMAND_POLLING_BASE, Nothing(34) + CounterBytes(m))
  }

  function ReadReply(k: Section, m: Image): seq<byte> {
    FrameOf(COMMAND_READ_EEPROM, [Start(k), Count(k)] + Bytes(m, k))
  }

  function AckReply(m: Image): seq<byte> {
    FrameOf(COMMAND_WRITE_EEPROM, Nothing(3) + CounterBytes(m))
  }

  lemma PollReplies(m: Image)
    ensures Replies(PollingBase, PollReply(m), m) && !HasToken(Padded(PollReply(m)))
  {
    var body := Nothing(34) + CounterBytes(m);
    var f := PollReply(m);
    FrameOfIs(COMMAND_POLLING_BASE, body);
    assert f[38] == f[4..42][34] && f[39] == f[4..42][35] && f[40] == f[4..42][36] && f[41] == f[4..42][37];
    assert f[4] == f[4..42][0] == 0;
    Mailbox.CStringStops(Padded(f), 4);
    Mailbox.NoAck(CString(Padded(f)));
  }

  lemma ReadReplies(k: Section, m: Image)
    ensures Replies(ReadEeprom(k), ReadReply(k, m), m)
  {
    var body := [Start(k) as byte, Count(k) as byte] + Bytes(m, k);
    var f := ReadReply(k, m);
    FrameOfIs(COMMAND_READ_EEPROM, body);
    var n := |body|;
    assert f[4] == f[4..4 + n][0] && f[5] == f[4..4 + n][1];
    assert f[6..6 + Count(k)] == f[4..4 + n][2..] == Bytes(m, k);
  }

  lemma AckReplies(k: Section, data: seq<byte>, m: Image)
    ensures Replies(WriteEeprom(k, data), AckReply(m), m)
  {
    var body := Nothing(3) + CounterBytes(m);
    var f := AckReply(m);
    FrameOfIs(COMMAND_WRITE_EEPROM, body);
    assert f[7] == f[4..11][3] && f[8] == f[4..11][4] && f[9] == f[4..11][5] && f[10] == f[4..11][6];
  }

  /** A single zero byte is an error to Read_Message. */
  lemma ZeroIsGarbage()
    ensures Garbage([0])
  {
    var b := Padded([0]);
    assert b[0] == [0][0];
    Mailbox.ZerosAreNoMessage(b);
  }

  // ---- A unit of zeros, and the handshake with it ---------------------------

  function Zero(): Image {
    seq(EEPROM_SIZE, _ => 0)
  }

  const UNIT := Unit(Zero(), map[], false)
  const NO_COUNTS := Counters(0, 0, 0, 0)
  const C0 := Clock(0, 0, 0, 0, 0, 0)
  const IO := Io(true, Bootloader.Missing)

  function Begun(): System {
    PowerOn(Zero(), UNIT)
  }

  lemma ZeroPatch(k: Section)
    ensures Patch(Zero(), Start(k), Bytes(Zero(), k)) == Zero()
  {
  }

  /** Where a run of the handshake stands: nothing has happened but the handshake itself. */
  predicate Walking(s: System, conn: Conn) {
    var t := s.node.task;
    && Inv(s) && Shake(s) && s.unit == UNIT && t.conn == conn
    && t.jobs == {} && t.landing == 0 && t.mirror == Zero() && t.globalMs == 0 && !t.extInit
    && (AwaitsReply(conn) ==> s.wire.Asked?)
    && (Searching(conn) ==> !s.node.rx.boot)
  }

  lemma NotYet(t: Task)
    requires t.globalMs == 0
    ensures !TimedOut(t, C0)
  {
  }

  /** The first look at a reply. */
  lemma FirstLook(s: System)
    requires Shake(s) && AwaitsReply(s.node.task.conn) && s.node.task.globalMs == 0 && !(s.node.task.conn == TrySerialLink && s.node.rx.boot)
    requires s.wire.Answered? && Mailbox.Waiting(s.node.rx, s.wire.f) && Enabled(s, Loop(C0, IO))
    ensures var n := Step(s, Loop(C0, IO));
            && n == s.(node := s.node.(rx := n.node.rx))
            && Mailbox.Claimed(n.node.rx, s.wire.f) && n.node.rx.boot == s.node.rx.boot
  {
    var t := s.node.task;
    var (r, m) := Listen(t, C0, s.node.rx, map[]);
    NotYet(t);
    ListenIs(t, C0, s.node.rx, map[]);
    Mailbox.ReadWaiting(s.node.rx, s.wire.f);
    StepShakes(s, C0, IO);
    ConnectIs(t, C0, m, IO);
    WaitIs(t, C0, m);
  }

  /** The second look takes it. */
  lemma SecondLook(s: System) returns (r: Rx, m: Msg)
    requires Shake(s) && AwaitsReply(s.node.task.conn) && s.node.task.globalMs == 0
    requires s.wire.Answered? && Mailbox.Claimed(s.node.rx, s.wire.f) && IsFrame(s.wire.f) && Enabled(s, Loop(C0, IO))
    ensures m.Valid() && m.code == |s.wire.f| && m.buf == Padded(s.wire.f) && Mailbox.Idle(r) && r.buf == m.buf
    ensures !HasToken(m.buf) ==> m.boot == s.node.rx.boot && r.boot == s.node.rx.boot
    ensures Step(s, Loop(C0, IO)) == Shaken(s, C0, IO, r, m)
    ensures Connect(s.node.task, C0, m, IO) == ReplyStep(s.node.task, C0, m)
  {
    var t := s.node.task;
    NotYet(t);
    ListenIs(t, C0, s.node.rx, map[]);
    Mailbox.ReadClaimed(s.node.rx, s.wire.f);
    VerifyAcceptsFrames(s.wire.f);
    StepShakes(s, C0, IO);
    var h := Listen(t, C0, s.node.rx, map[]);
    r, m := h.0, h.1;
    ConnectIs(t, C0, m, IO);
  }

  /** The unit answers. */
  lemma AnswerWalk(s0: System, s: System, f: seq<byte>) returns (n: System)
    requires Reaches(s0, s) && Inv(s) && Shake(s) && s.unit == UNIT && s.wire.Asked? && Replies(s.wire.q, f, Zero())
    ensures Reaches(s0, n) && Inv(n) && Shake(n) && Mailbox.Waiting(n.node.rx, f)
    ensures n == s.(wire := Answered(s.wire.q, f, UNIT), node := s.node.(rx := n.node.rx)) && n.node.rx.boot == s.node.rx.boot
  {
    var a := Answer(f, false);
    assert !s.wire.q.WriteEeprom?;
    n := Step(s, a);
    Reach(s0, s, a);
    AnswerKeepsInv(s, f, false);
    AnswerKeepsShake(s, f, false, false);
    Mailbox.ArriveIdle(s.node.rx, f);
  }

  /** It answers and the firmware looks once. */
  lemma AskedTo(s0: System, s: System, conn: Conn, f: seq<byte>) returns (n: System)
    requires Reaches(s0, s) && Walking(s, conn) && AwaitsReply(conn) && Replies(s.wire.q, f, Zero())
    ensures Reaches(s0, n) && Inv(n) && Shake(n) && Mailbox.Claimed(n.node.rx, f)
    ensures n == s.(wire := Answered(s.wire.q, f, UNIT), node := s.node.(rx := n.node.rx)) && n.node.rx.boot == s.node.rx.boot
    ensures Enabled(n, Loop(C0, IO))
  {
    var a := AnswerWalk(s0, s, f);
    NotYet(s.node.task);
    FirstLook(a);
    Reach(s0, a, Loop(C0, IO));
    n := Step(a, Loop(C0, IO));
    LoopKeepsInv(a, C0, IO);
    ReplyKeepsInv(a, C0, IO);
  }

  /** It answers and the firmware looks twice: a is the state between, n the one after. */
  lemma Taken(s0: System, s: System, conn: Conn, f: seq<byte>) returns (a: System, n: System, r: Rx, m: Msg)
    requires Reaches(s0, s) && Walking(s, conn) && AwaitsReply(conn) && Replies(s.wire.q, f, Zero())
    ensures Inv(a) && Shake(a) && a.wire == Answered(s.wire.q, f, UNIT) && a.unit == UNIT
    ensures a.node.task == s.node.task && a.node.at == s.node.at && a.node.rx.boot == s.node.rx.boot
    ensures m.Valid() && m.code == |f| > RUN_DOWNLOAD && m.buf == Padded(f) && Mailbox.Idle(r) && r.buf == m.buf
    ensures !HasToken(m.buf) ==> m.boot == s.node.rx.boot && r.boot == s.node.rx.boot
    ensures Reaches(s0, n) && Inv(n) && n == Shaken(a, C0, IO, r, m)
    ensures Connect(a.node.task, C0, m, IO) == ReplyStep(a.node.task, C0, m)
  {
    a := AskedTo(s0, s, conn, f);
    r, m := SecondLook(a);
    Reach(s0, a, Loop(C0, IO));
    n := Step(a, Loop(C0, IO));
    LoopKeepsInv(a, C0, IO);
  }

  /** One section stage. */
  lemma StageWalk(s0: System, s: System, conn: Conn) returns (n: System)
    requires Reaches(s0, s) && Walking(s, conn) && ReadStage(conn)
    ensures Reaches(s0, n) && Walking(n, NextStage(conn))
  {
    ReadReplies(Awaited(conn), Zero());
    var a, b, r, m := Taken(s0, s, conn, ReadReply(Awaited(conn), Zero()));
    n := b;
    StageTaken(a, n, r, m, s.node.task);
    StageEnds(n, s.node.task);
  }

  lemma StageTaken(a: System, n: System, r: Rx, m: Msg, t: Task)
    requires Shake(a) && Counting(a.unit) && a.node.task == t && ReadStage(t.conn) && a.unit == UNIT
    requires a.wire.Answered? && a.wire.f == ReadReply(Awaited(t.conn), Zero())
    requires t.mirror == Zero() && t.globalMs == 0
    requires m.Valid() && m.code == |a.wire.f| > 1 && m.buf == Padded(a.wire.f) && Mailbox.Idle(r)
    requires n == Shaken(a, C0, IO, r, m) && Connect(t, C0, m, IO) == ReplyStep(t, C0, m)
    ensures Shake(n) && n.node.task == t.(conn := NextStage(t.conn), globalMs := 0) && n.wire == Asked(NextAsk(t.conn)) && n.unit == UNIT
  {
    NotYet(t);
    SectionKeepsInv(a, C0, IO, r, m);
    StageOutcome(a, n, r, m);
  }

  lemma StageEnds(n: System, t: Task)
    requires Inv(n) && Shake(n) && n.unit == UNIT && ReadStage(t.conn) && n.wire == Asked(NextAsk(t.conn))
    requires n.node.task == t.(conn := NextStage(t.conn), globalMs := 0)
    requires t.jobs == {} && t.landing == 0 && t.mirror == Zero() && !t.extInit
    ensures Walking(n, NextStage(t.conn))
  {
    NextStageAsks(t.conn);
  }

  lemma StageOutcome(a: System, n: System, r: Rx, m: Msg)
    requires ReadStage(a.node.task.conn) && a.unit == UNIT && a.wire.Answered? && a.wire.f == ReadReply(Awaited(a.node.task.conn), Zero())
    requires a.node.task.mirror == Zero() && a.node.task.globalMs == 0 && a.node.task.com == WbmCommunicating
    requires m.Valid() && m.code == |a.wire.f| > 1 && m.buf == Padded(a.wire.f)
    requires n == Shaken(a, C0, IO, r, m) && Connect(a.node.task, C0, m, IO) == ReplyStep(a.node.task, C0, m)
    ensures var t := a.node.task;
            && n.node.task == t.(conn := NextStage(t.conn), globalMs := 0)
            && n.wire == Asked(NextAsk(t.conn)) && n.unit == UNIT
    ensures n.node.task.mirror == Zero()
  {
    var t := a.node.task;
    var k := Awaited(t.conn);
    NotYet(t);
    NextStageAsks(t.conn);
    ReadReplies(k, Zero());
    SectionReceived(t, k, a.wire.f, Zero());
    ZeroPatch(k);
    assert ReplyStep(t, C0, m) == SectionMessage(t, C0, m);
  }

  /** Power-up, and the first poll. */
  lemma FirstPoll() returns (n: System)
    ensures Reaches(Begun(), n) && Walking(n, TrySerialLink) && n.wire == Asked(PollingBase)
  {
    var s0 := Begun();
    PowerOnInv(Zero(), UNIT);
    ReachSelf(s0);
    var s1 := Step(s0, Loop(C0, IO));
    Reach(s0, s0, Loop(C0, IO));
    LoopKeepsInv(s0, C0, IO);
    assert Shake(s1) && s1.node.task == Begin(Boot(Zero()));
    var s2 := LinkWalk(s0, s1);
    n := LinkWalk(s0, s2);
  }

  /** A step before anything is read. */
  lemma LinkWalk(s0: System, s: System) returns (n: System)
    requires Reaches(s0, s) && Inv(s) && Shake(s) && s.node.task.conn in {Init, LinkConnecting, LinkConnected}
    ensures Reaches(s0, n) && Inv(n) && Shake(n) && n.unit == s.unit
    ensures n.node.task == LinkStep(s.node.task, C0).task && n.node.rx == s.node.rx
    ensures n.wire == WireAfter(s.wire, LinkStep(s.node.task, C0).sent)
  {
    var t := s.node.task;
    ConnectIs(t, C0, Recall(s.node.rx), IO);
    ListenIs(t, C0, s.node.rx, map[]);
    StepShakes(s, C0, IO);
    Reach(s0, s, Loop(C0, IO));
    n := Step(s, Loop(C0, IO));
    LoopKeepsInv(s, C0, IO);
    LinkKeepsInv(s, C0, IO);
  }

  /** The unit is found. */
  lemma Found(s0: System, s: System) returns (n: System)
    requires Reaches(s0, s) && Walking(s, TrySerialLink) && s.wire == Asked(PollingBase)
    ensures Reaches(s0, n) && Walking(n, ReadInfo)
  {
    PollReplies(Zero());
    var a, b, r, m := Taken(s0, s, TrySerialLink, PollReply(Zero()));
    NotYet(a.node.task);
    FoundKeepsInv(a, C0, IO, r, m);
    FoundOutcome(a, b, r, m);
    n := LinkWalk(s0, b);
  }

  lemma FoundOutcome(a: System, n: System, r: Rx, m: Msg)
    requires a.node.task.conn == TrySerialLink && a.node.task.globalMs == 0 && a.wire.Answered? && a.node.task.com == WbmCommunicating
    requires m.Valid() && m.code > RUN_DOWNLOAD && !m.boot && n == Shaken(a, C0, IO, r, m)
    requires Connect(a.node.task, C0, m, IO) == ReplyStep(a.node.task, C0, m)
    ensures n.node.task == a.node.task.(conn := LinkConnected) && n.unit == a.unit && n.wire == Quiet
  {
    NotYet(a.node.task);
    assert ReplyStep(a.node.task, C0, m) == Quietly(SerialMessage(a.node.task, m));
  }

  /** At the last state of the handshake, with the poll's reply still in the message buffer. */
  predicate AtEnd(s: System) {
    var t := s.node.task;
    && Inv(s) && Shake(s) && s.unit == UNIT && t.conn == Connected && s.wire == Quiet
    && t.jobs == {} && t.landing == 0 && t.mirror == Zero() && t.globalMs == 0 && !t.extInit
    && s.node.rx.buf == Padded(PollReply(Zero()))
  }

  lemma LastPoll(s0: System, s: System) returns (n: System)
    requires Reaches(s0, s) && Walking(s, AwaitPolling)
    ensures Reaches(s0, n) && AtEnd(n)
  {
    PollReplies(Zero());
    var a, b, r, m := Taken(s0, s, AwaitPolling, PollReply(Zero()));
    n := b;
    PollTaken(a, n, r, m);
  }

  lemma PollTaken(a: System, n: System, r: Rx, m: Msg)
    requires Shake(a) && a.node.task.conn == AwaitPolling && a.node.task.globalMs == 0 && a.unit == UNIT
    requires a.wire.Answered? && Inv(n)
    requires a.node.task.jobs == {} && a.node.task.landing == 0 && a.node.task.mirror == Zero() && !a.node.task.extInit
    requires m.Valid() && m.code > RUN_DOWNLOAD && m.buf == Padded(PollReply(Zero())) && Mailbox.Idle(r) && r.buf == m.buf
    requires n == Shaken(a, C0, IO, r, m) && Connect(a.node.task, C0, m, IO) == ReplyStep(a.node.task, C0, m)
    ensures AtEnd(n)
  {
    NotYet(a.node.task);
    PollingKeepsInv(a, C0, IO, r, m);
    assert ReplyStep(a.node.task, C0, m) == Quietly(PollingMessage(a.node.task, C0, m));
  }

  // ---- The Connected loop with it -------------------------------------------

  /** In the Connected loop, powered off, with its timers at rest. */
  predicate Resting(t: Task, ms: u32) {
    && t.com == WbmConnected && t.conn == Connected && t.mode == PowerOff && t.extInit
    && t.pollMs == ms && t.globalMs == ms
  }

  /** Connected to the unit of zeros, with nothing to do. */
  predicate Still(s: System) {
    var t := s.node.task;
    && Inv(s) && Connection(s) && s.unit == UNIT && s.wire == Quiet && s.node.at == Top
    && Resting(t, 0) && t.jobs == {} && t.landing == 0 && t.mirror == Zero() && t.ext == NO_COUNTS && !t.busy
    && (forall k: Section :: Counted(k) ==> k in s.seen && s.seen[k] == 0)
  }

  lemma Entered(s0: System, s: System) returns (n: System)
    requires Reaches(s0, s) && AtEnd(s)
    ensures Reaches(s0, n) && Still(n)
  {
    var t := s.node.task;
    Reach(s0, s, Loop(C0, IO));
    n := Step(s, Loop(C0, IO));
    LoopKeepsInv(s, C0, IO);
    FinishKeepsInv(s, C0, IO);
    StepShakes(s, C0, IO);
    ListenIs(t, C0, s.node.rx, map[]);
    ConnectIs(t, C0, Recall(s.node.rx), IO);
    RestIs(t, C0, Recall(s.node.rx), IO);
    EntryTask(t, s.node.rx.buf);
    EntrySeen(n);
  }

  lemma EntryTask(t: Task, buf: seq<byte>)
    requires buf == Padded(PollReply(Zero())) && t.mirror == Zero() && t.jobs == {} && !t.extInit && t.globalMs == 0 && t.conn == Connected
    ensures var u := FinishConnecting(t, C0, buf);
            Resting(u, 0) && u.jobs == {} && u.mirror == Zero() && u.ext == NO_COUNTS && u.landing == t.landing && u.busy == t.busy
  {
    PollReplies(Zero());
    assert PollCounters(buf) == NO_COUNTS;
    assert MirrorCounters(Zero()) == NO_COUNTS;
    assert Rereads(NO_COUNTS, NO_COUNTS) == {};
  }

  lemma EntrySeen(n: System)
    requires n.seen == Anchors(UNIT, NO_COUNTS)
    ensures forall k: Section :: Counted(k) ==> k in n.seen && n.seen[k] == 0
  {
  }

  lemma ThreeStages(s0: System, s: System, conn: Conn) returns (n: System)
    requires Reaches(s0, s) && Walking(s, conn) && conn in {ReadInfo, ReadSetTemp}
    ensures Reaches(s0, n) && Walking(n, if conn == ReadInfo then ReadSetTemp else AwaitPolling)
  {
    var a := StageWalk(s0, s, conn);
    var b := StageWalk(s0, a, NextStage(conn));
    n := StageWalk(s0, b, NextStage(NextStage(conn)));
  }

  /** The Connected loop is reached: the handshake with this unit goes through. */
  lemma Connects() returns (n: System)
    ensures Reaches(Begun(), n) && Still(n)
  {
    var found := Searched();
    var half := ThreeStages(Begun(), found, ReadInfo);
    var read := ThreeStages(Begun(), half, ReadSetTemp);
    var polled := LastPoll(Begun(), read);
    n := Entered(Begun(), polled);
  }

  lemma Searched() returns (n: System)
    ensures Reaches(Begun(), n) && Walking(n, ReadInfo)
  {
    var a := FirstPoll();
    n := Found(Begun(), a);
  }

  // ---- Ticks of the Connected loop ------------------------------------------

  /** A clock that stands still for an iteration. */
  function At(ms: u32): Clock {
    Clock(ms, ms, ms, ms, ms, ms)
  }

  lemma RestingHead(t: Task, ms: u32)
    requires Resting(t, ms)
    ensures Head(t, At(ms)) == Quietly(t)
    ensures At(0) == C0
  {
  }

  lemma HeadTick(s0: System, s: System, ms: u32) returns (n: System)
    requires Reaches(s0, s) && s.node.at == Top && Resting(s.node.task, ms) && !s.wire.Noise?
    ensures Reaches(s0, n) && n == s.(node := s.node.(at := Reading))
  {
    RestingHead(s.node.task, ms);
    Reach(s0, s, Loop(At(ms), IO));
    n := Step(s, Loop(At(ms), IO));
  }

  /** Nothing has come, or a first look at what has. */
  lemma LookTick(s0: System, s: System, ms: u32) returns (n: System)
    requires Reaches(s0, s) && s.node.at == Reading && s.node.task.com == WbmConnected && !s.wire.Noise?
    requires RxOk(s.node.rx, s.wire) && (InMailbox(s.wire) ==> Mailbox.Waiting(s.node.rx, s.wire.f))
    ensures Reaches(s0, n) && n == s.(node := s.node.(rx := n.node.rx, at := Scheduling))
    ensures RxOk(n.node.rx, n.wire) && (InMailbox(s.wire) ==> Mailbox.Claimed(n.node.rx, s.wire.f))
  {
    if InMailbox(s.wire) {
      Mailbox.ReadWaiting(s.node.rx, s.wire.f);
    } else {
      Mailbox.ReadIdle(s.node.rx, map[]);
    }
    Reach(s0, s, Loop(At(ms), IO));
    n := Step(s, Loop(At(ms), IO));
  }

  lemma BusyTick(s0: System, s: System) returns (n: System)
    requires Reaches(s0, s) && s.node.at == Scheduling && !Ready(s.node.task) && s.node.task.com == WbmConnected && !s.wire.Noise?
    ensures Reaches(s0, n) && n == s.(node := s.node.(at := Top))
  {
    Reach(s0, s, Loop(C0, IO));
    n := Step(s, Loop(C0, IO));
  }

  lemma AskTick(s0: System, s: System, j: Job, q: Request) returns (n: System)
    requires Reaches(s0, s) && s.node.at == Scheduling && Ready(s.node.task) && s.node.task.com == WbmConnected && s.wire == Quiet
    requires j == Turn(s.node.task.jobs)[0] && Wanted(j, s.node.task.mirror) == [q]
    ensures Reaches(s0, n) && n == s.(node := s.node.(at := Clearing(j)), wire := Asked(q))
  {
    Reach(s0, s, Loop(C0, IO));
    n := Step(s, Loop(C0, IO));
  }

  lemma ClearTick(s0: System, s: System, j: Job) returns (n: System)
    requires Reaches(s0, s) && s.node.at == Clearing(j) && s.node.task.com == WbmConnected && !s.wire.Noise?
    ensures Reaches(s0, n) && n == s.(node := Node(Cleared(s.node.task, j), s.node.rx, Top))
  {
    Reach(s0, s, Loop(C0, IO));
    n := Step(s, Loop(C0, IO));
  }

  /** A busy iteration in which the firmware takes its first look: round to the loop's head again. */
  lemma BusyRound(s0: System, s: System, ms: u32) returns (n: System)
    requires Reaches(s0, s) && s.node.at == Top && Resting(s.node.task, ms) && s.node.task.busy && !s.wire.Noise?
    requires RxOk(s.node.rx, s.wire) && (InMailbox(s.wire) ==> Mailbox.Waiting(s.node.rx, s.wire.f))
    ensures Reaches(s0, n) && n == s.(node := s.node.(rx := n.node.rx))
    ensures RxOk(n.node.rx, n.wire) && (InMailbox(s.wire) ==> Mailbox.Claimed(n.node.rx, s.wire.f))
  {
    var a := HeadTick(s0, s, ms);
    var b := LookTick(s0, a, ms);
    n := BusyTick(s0, b);
  }

  /** The second look takes an answer. */
  lemma TakeTick(s0: System, s: System, ms: u32) returns (n: System)
    requires Reaches(s0, s) && s.node.at == Reading && s.node.task.com == WbmConnected
    requires s.wire.Answered? && Mailbox.Claimed(s.node.rx, s.wire.f) && IsFrame(s.wire.f)
    ensures Reaches(s0, n) && Mailbox.Idle(n.node.rx) && n.wire == Quiet && n.unit == s.unit && n.node.at == Scheduling
    ensures n.node.task == Dispatch(s.node.task.(globalMs := ms), Padded(s.wire.f))
  {
    Mailbox.ReadClaimed(s.node.rx, s.wire.f);
    VerifyAcceptsFrames(s.wire.f);
    Reach(s0, s, Loop(At(ms), IO));
    n := Step(s, Loop(At(ms), IO));
  }

  /** The second look finds garbage. */
  lemma ErrorTick(s0: System, s: System, ms: u32) returns (n: System)
    requires Reaches(s0, s) && s.node.at == Reading && s.node.task.com == WbmConnected
    requires s.wire.Garbled? && Mailbox.Claimed(s.node.rx, s.wire.f) && Garbage(s.wire.f)
    ensures Reaches(s0, n) && n.wire == Quiet && n.unit == s.unit && n.node.at == Scheduling
    ensures n.node.task == s.node.task.(busy := false)
  {
    Mailbox.ReadClaimed(s.node.rx, s.wire.f);
    Reach(s0, s, Loop(At(ms), IO));
    n := Step(s, Loop(At(ms), IO));
  }

  lemma AnswerTick(s0: System, s: System, f: seq<byte>) returns (n: System)
    requires Reaches(s0, s) && s.wire.Asked? && CanAnswer(s, false) && Replies(s.wire.q, f, s.unit.mem) && RxOk(s.node.rx, s.wire)
    ensures Reaches(s0, n) && Mailbox.Waiting(n.node.rx, f)
    ensures n == s.(wire := Answered(s.wire.q, f, s.unit), node := s.node.(rx := n.node.rx))
  {
    Mailbox.ArriveIdle(s.node.rx, f);
    Reach(s0, s, Answer(f, false));
    n := Step(s, Answer(f, false));
  }

  lemma AppTick(s0: System, s: System, a: AppStep) returns (n: System)
    requires Reaches(s0, s) && Safe(s, Event.App(a))
    ensures Reaches(s0, n) && n == s.(node := s.node.(task := AppDoes(s.node.task, a)))
  {
    Reach(s0, s, Event.App(a));
    n := Step(s, Event.App(a));
  }

  // ---- A payload that undercuts a write -------------------------------------

  /** The same bytes but for the first. */
  function Other(): Image {
    Zero()[0 := 1]
  }

  lemma ImageOf(m: Image)
    ensures PayloadImage(m) == m
  {
  }

  lemma TakenOver(s0: System, s: System) returns (n: System)
    requires Reaches(s0, s) && Still(s)
    ensures Reaches(s0, n) && n == s.(node := s.node.(task := s.node.task.(jobs := FLUSH)))
  {
    ImageOf(Zero());
    var a := AppTick(s0, s, Copy(Zero()));
    n := AppTick(s0, a, Raise);
    assert n.node.task == s.node.task.(jobs := FLUSH);
  }

  /** The first payload is taken and Info's write goes out. */
  lemma InfoGoesOut(s0: System, s: System) returns (n: System)
    requires Reaches(s0, s) && Still(s)
    ensures Reaches(s0, n) && n.node.at == Clearing(WriteJob(Info)) && n.wire == Asked(WriteEeprom(Info, Bytes(Zero(), Info)))
    ensures n.node.task == s.node.task.(jobs := FLUSH) && RxOk(n.node.rx, n.wire) && n.unit == UNIT && n.seen == s.seen
  {
    var b := TakenOver(s0, s);
    n := FirstWrite(s0, b, s.node.task);
  }

  lemma FirstWrite(s0: System, s: System, t: Task) returns (n: System)
    requires Reaches(s0, s) && s.node.at == Top && s.wire == Quiet && RxOk(s.node.rx, s.wire)
    requires Resting(t, 0) && t.mirror == Zero() && !t.busy && s.node.task == t.(jobs := FLUSH)
    ensures Reaches(s0, n) && n.node.at == Clearing(WriteJob(Info)) && n.wire == Asked(WriteEeprom(Info, Bytes(Zero(), Info)))
    ensures n.node.task == s.node.task && RxOk(n.node.rx, n.wire) && n.unit == s.unit && n.seen == s.seen
  {
    var c := HeadTick(s0, s, 0);
    var d := LookTick(s0, c, 0);
    n := AskTick(s0, d, WriteJob(Info), WriteEeprom(Info, Bytes(Zero(), Info)));
  }

  /** Another payload's bits go up while it does: the unsafe event. */
  lemma Undercutting(s0: System, s: System, t: Task) returns (before: System, after: System)
    requires Reaches(s0, s) && s.node.at == Clearing(WriteJob(Info)) && s.wire == Asked(WriteEeprom(Info, Bytes(Zero(), Info)))
    requires Resting(t, 0) && t.landing == 0 && s.node.task == t.(jobs := FLUSH) && s.unit == UNIT
    ensures Reaches(s0, before) && Undercut(before) && after == Step(before, Event.App(Raise))
    ensures after == s.(node := s.node.(task := t.(jobs := FLUSH, mirror := Other())))
  {
    ImageOf(Other());
    before := AppTick(s0, s, Copy(Other()));
    assert before.node.task == t.(jobs := FLUSH, mirror := Other(), landing := 1);
    assert Bytes(Other(), Info)[..58][0] == 1 && Bytes(Zero(), Info)[..58][0] == 0;
    assert !Stored(Other(), Info, Bytes(Zero(), Info));
    after := Step(before, Event.App(Raise));
    assert FLUSH + FLUSH == FLUSH;
  }

  /** The state once Info's bit is down: the second payload's bytes, its bits but for Info's. */
  function Overtaken(t: Task): Task {
    t.(jobs := FLUSH - {WriteJob(Info)}, mirror := Other(), busy := true)
  }

  /** The bit goes down, the unit answers, and the answer is taken. */
  lemma AnswerComes(s: System, t: Task) returns (n: System)
    requires s.node.at == Clearing(WriteJob(Info)) && s.wire == Asked(WriteEeprom(Info, Bytes(Zero(), Info))) && RxOk(s.node.rx, s.wire)
    requires Resting(t, 0) && s.node.task == t.(jobs := FLUSH, mirror := Other(), busy := false) && s.unit == UNIT
    ensures Reaches(s, n) && n.wire == Quiet && n.unit == UNIT && n.node.at == Scheduling
    ensures n.node.task == Dispatch(Overtaken(t), Padded(AckReply(Zero())))
  {
    ReachSelf(s);
    AckReplies(Info, Bytes(Zero(), Info), Zero());
    var a := ClearTick(s, s, WriteJob(Info));
    assert a.node.task == Overtaken(t);
    var b := AnswerTick(s, a, AckReply(Zero()));
    var c := BusyRound(s, b, 0);
    var d := HeadTick(s, c, 0);
    n := TakeTick(s, d, 0);
    assert Overtaken(t).(globalMs := 0) == Overtaken(t);
  }

  lemma AckOfZeros(t: Task)
    requires t.mirror == Other()
    ensures var u := Dispatch(t, Padded(AckReply(Zero())));
            u == t.(busy := false)
  {
    var buf := Padded(AckReply(Zero()));
    AckReplies(Info, Bytes(Zero(), Info), Zero());
    DispatchIs(t, buf);
    assert buf[TYPE_COMAND] == AckReply(Zero())[TYPE_COMAND];
    assert AckCounters(buf) == NO_COUNTS && MirrorCounters(Other()) == NO_COUNTS;
    assert Rereads(NO_COUNTS, NO_COUNTS) == {};
    assert SetCounters(Other(), NO_COUNTS) == Other();
    assert t.jobs + {} == t.jobs;
  }

  /** A run from power-up whose only excluded event is a payload undercutting a write, after which
      section Info differs from the unit's with no bit up, nothing under way and no counter moved. */
  lemma UndercutLosesSection() returns (before: System, end: System)
    ensures Reaches(Begun(), before) && Undercut(before) && Enabled(before, Event.App(Raise))
    ensures Reaches(Step(before, Event.App(Raise)), end)
    ensures end.node.task.com == WbmConnected && !Covered(Info, end.node.task, end.wire, end.unit)
  {
    var still := Connects();
    var out := InfoGoesOut(Begun(), still);
    var b, after := Undercutting(Begun(), out, still.node.task);
    before := b;
    end := Lost(after, still.node.task);
  }

  lemma Lost(s: System, t: Task) returns (n: System)
    requires s.node.at == Clearing(WriteJob(Info)) && s.wire == Asked(WriteEeprom(Info, Bytes(Zero(), Info))) && RxOk(s.node.rx, s.wire)
    requires Resting(t, 0) && t.landing == 0 && t.ext == NO_COUNTS && s.unit == UNIT
    requires s.node.task == t.(jobs := FLUSH, mirror := Other(), busy := false)
    ensures Reaches(s, n) && n.node.task.com == WbmConnected && !Covered(Info, n.node.task, n.wire, n.unit)
  {
    n := AnswerComes(s, t);
    AckOfZeros(Overtaken(t));
    Uncovered(n, t);
  }

  lemma Uncovered(n: System, t: Task)
    requires n.node.task == Overtaken(t).(busy := false) && n.wire == Quiet && n.unit == UNIT
    requires t.landing == 0 && t.ext == NO_COUNTS
    ensures !Covered(Info, n.node.task, n.wire, n.unit)
  {
    assert Bytes(Other(), Info)[0] != Bytes(Zero(), Info)[0];
  }

  // ---- A read whose answer is damaged ---------------------------------------

  /** The unit's SettingPar with its first byte changed, and its counter moved. */
  function Changed(): Unit {
    Change(UNIT, SettingPar, Bytes(Other(), SettingPar)[0 := 1])
  }

  lemma ChangedFacts()
    ensures Counting(Changed()) && Bytes(Changed().mem, SettingPar) != Bytes(Zero(), SettingPar)
    ensures MirrorCounters(Changed().mem) == Counters(0, 1, 0, 0)
  {
    var data := Bytes(Other(), SettingPar)[0 := 1];
    ChangeFacts(UNIT, SettingPar, data);
    var m := Changed().mem;
    assert Bytes(m, SettingPar)[..52][0] == data[..52][0] == 1;
    assert Bytes(m, SettingPar)[..52] == data[..52];
    assert Bytes(m, SettingPar)[0] == 1 && Bytes(Zero(), SettingPar)[0] == 0;
    assert Counter(m, SettingPar) == 1 && Counter(m, Info) == 0 && Counter(m, SetTemp) == 0 && Counter(m, DayProg) == 0;
  }

  /** The unit changes, the firmware polls and learns of it, and asks for the section. */
  lemma Polled(s0: System, s: System) returns (n: System)
    requires Reaches(s0, s) && Still(s)
    ensures Reaches(s0, n) && n.node.at == Reading && n.wire == Asked(PollingBase) && n.unit == Changed()
    ensures n.node.task == s.node.task.(busy := true, pollMs := 5000, globalMs := 5000) && RxOk(n.node.rx, n.wire)
  {
    var data := Bytes(Other(), SettingPar)[0 := 1];
    Reach(s0, s, UnitChange(SettingPar, data));
    var a := Step(s, UnitChange(SettingPar, data));
    Reach(s0, a, Loop(At(5000), IO));
    n := Step(a, Loop(At(5000), IO));
    PollIsDue(s.node.task);
  }

  lemma PollIsDue(t: Task)
    requires Resting(t, 0) && !t.busy
    ensures Head(t, At(5000)) == Out(t.(busy := true, pollMs := 5000, globalMs := 5000), [PollingBase], [], false)
  {
  }

  /** The reply comes and is taken. */
  lemma PollTakenIn(s0: System, s: System, t: Task) returns (n: System)
    requires Reaches(s0, s) && s.node.at == Reading && s.wire == Asked(PollingBase) && s.unit == Changed() && RxOk(s.node.rx, s.wire)
    requires Resting(t, 0) && t.jobs == {} && t.landing == 0 && t.mirror == Zero() && t.ext == NO_COUNTS && !t.busy
    requires s.node.task == t.(busy := true, pollMs := 5000, globalMs := 5000)
    ensures Reaches(s0, n) && n.wire == Quiet && n.unit == Changed() && n.node.at == Scheduling && Mailbox.Idle(n.node.rx)
    ensures n.node.task == t.(pollMs := 5000, globalMs := 5000, jobs := {ReadJob(SettingPar)}, ext := Counters(0, 1, 0, 0))
  {
    var mem := Changed().mem;
    PollReplies(mem);
    var a := LookTick(s0, s, 5000);
    var b := BusyTick(s0, a);
    var c := AnswerTick(s0, b, PollReply(mem));
    var d := BusyRound(s0, c, 5000);
    var e := HeadTick(s0, d, 5000);
    n := TakeTick(s0, e, 5000);
    PollShows(s.node.task);
  }

  lemma PollShows(t: Task)
    requires t.jobs == {} && t.ext == NO_COUNTS && t.extInit && t.globalMs == 5000
    ensures Dispatch(t.(globalMs := 5000), Padded(PollReply(Changed().mem))) ==
            t.(jobs := {ReadJob(SettingPar)}, ext := Counters(0, 1, 0, 0), busy := false)
  {
    var buf := Padded(PollReply(Changed().mem));
    ChangedReply();
    DispatchIs(t, buf);
    assert Rereads(Counters(0, 1, 0, 0), NO_COUNTS) == {ReadJob(SettingPar)};
    assert {} + {ReadJob(SettingPar)} == {ReadJob(SettingPar)};
    assert t.(globalMs := 5000) == t;
  }

  lemma ChangedReply()
    ensures var buf := Padded(PollReply(Changed().mem));
            buf[TYPE_COMAND] == COMMAND_POLLING_BASE && PollCounters(buf) == Counters(0, 1, 0, 0)
  {
    var f := PollReply(Changed().mem);
    PollReplies(Changed().mem);
    ChangedFacts();
    assert Padded(f)[TYPE_COMAND] == f[TYPE_COMAND];
  }

  /** The read goes out. */
  lemma ReadGoesOut(s0: System, s: System, t: Task) returns (n: System)
    requires Reaches(s0, s) && s.wire == Quiet && s.node.at == Scheduling && Mailbox.Idle(s.node.rx) && s.unit == Changed()
    requires Resting(t, 5000) && t.jobs == {ReadJob(SettingPar)} && !t.busy && s.node.task == t
    ensures Reaches(s0, n) && n.node.at == Top && n.wire == Asked(ReadEeprom(SettingPar)) && n.unit == Changed()
    ensures n.node.task == t.(jobs := {}, busy := true) && RxOk(n.node.rx, n.wire)
  {
    var j := ReadJob(SettingPar);
    var a := AskTick(s0, s, j, ReadEeprom(SettingPar));
    n := ClearTick(s0, a, j);
    assert t.jobs - {j} == {};
  }

  /** Its answer is damaged: the unsafe event.  The firmware reports an error and goes on. */
  lemma AnswerLost(s: System, t: Task) returns (n: System)
    requires s.node.at == Top && s.wire == Asked(ReadEeprom(SettingPar)) && RxOk(s.node.rx, s.wire) && s.unit == Changed()
    requires Resting(t, 5000) && t.busy && s.node.task == t
    ensures Enabled(s, Garble([0], false)) && !Harmless(s, false)
    ensures Reaches(Step(s, Garble([0], false)), n) && n.wire == Quiet && n.unit == Changed() && n.node.task == t.(busy := false)
  {
    ZeroIsGarbage();
    var g := Step(s, Garble([0], false));
    Mailbox.ArriveIdle(s.node.rx, [0]);
    ReachSelf(g);
    var a := BusyRound(g, g, 5000);
    var b := HeadTick(g, a, 5000);
    n := ErrorTick(g, b, 5000);
  }

  /** A run from power-up whose only excluded event is a damaged answer to a read, after which section
      SettingPar differs from the unit's with no bit up, nothing under way and no counter moved. */
  lemma GarbledReadLosesSection() returns (before: System, end: System)
    ensures Reaches(Begun(), before) && before.wire == Asked(ReadEeprom(SettingPar))
    ensures Enabled(before, Garble([0], false)) && !Harmless(before, false)
    ensures Reaches(Step(before, Garble([0], false)), end)
    ensures end.node.task.com == WbmConnected && !Covered(SettingPar, end.node.task, end.wire, end.unit)
  {
    var still := Connects();
    var t := still.node.task;
    var asked := Polled(Begun(), still);
    var told := PollTakenIn(Begun(), asked, t);
    before := ReadGoesOut(Begun(), told, told.node.task);
    end := AnswerLost(before, before.node.task);
    ChangedFacts();
    assert end.node.task.mirror == Zero() && end.node.task.ext == MirrorCounters(end.unit.mem);
  }

  // ---- Why a disturbance must be over before the next request ---------------

  /** A disturbance that is still in the mailbox when a request goes out is taken for its answer: five
      ticks later the firmware holds the request for settled, though the unit has yet to answer it,
      and is free to send another.  The mailbox keeps only one of the two answers. */
  lemma NoiseThenRead(n: Node, k: Section, f: seq<byte>)
    requires n.at == Reading && Resting(n.task, 0) && n.task.jobs == {ReadJob(k)} && Counted(k) && !n.task.busy
    requires Mailbox.Waiting(n.rx, f) && Garbage(f)
    ensures var a := TickEffect(n, C0, IO, map[]);
            var b := TickEffect(a.node, C0, IO, map[]);
            var c := TickEffect(b.node, C0, IO, map[]);
            var d := TickEffect(c.node, C0, IO, map[]);
            var e := TickEffect(d.node, C0, IO, map[]);
            && a.sent + b.sent + c.sent + d.sent + e.sent == [ReadEeprom(k)]
            && e.node.at == Scheduling && !Outstanding(e.node) && e.node.task.jobs == {}
  {
    var t := n.task;
    Mailbox.ReadWaiting(n.rx, f);
    var a := TickEffect(n, C0, IO, map[]);
    assert a.node.task == t && a.node.at == Scheduling && Mailbox.Claimed(a.node.rx, f);
    var b := TickEffect(a.node, C0, IO, map[]);
    assert b.node == a.node.(at := Clearing(ReadJob(k))) && b.sent == [ReadEeprom(k)];
    var c := TickEffect(b.node, C0, IO, map[]);
    assert c.node == Node(Cleared(t, ReadJob(k)), a.node.rx, Top);
    RestingHead(c.node.task, 0);
    var d := TickEffect(c.node, C0, IO, map[]);
    assert d.node == c.node.(at := Reading) && d.sent == [];
    Mailbox.ReadClaimed(d.node.rx, f);
    assert t.jobs - {ReadJob(k)} == {};
  }
}
