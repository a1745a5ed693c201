/** The handshake, step by step: each stage waits for its own section, stores it
    and asks for the next, and the last step hands the Connected loop a mirror
    that is coherent. */
module Handshake {
  import opened Layout
  import opened Frame
  import opened Requests
  import opened Link
  import opened Nodes
  import opened Systems
  import opened Coherence

  // ---- The handshake --------------------------------------------------------

  /** The handshake reads the sections in this order; Configuration a second time as HWSetting. */
  function Rank(k: Section): nat {
    match k
    case Info => 1
    case Configuration => 2
    case HWSetting => 2
    case SettingPar => 3
    case SetTemp => 4
    case DayProg => 5
  }

  predicate Past(conn: Conn, k: Section) {
    Stage(conn) > Rank(k)
  }

  /** What is outstanding in each stage. */
  predicate Expects(conn: Conn, w: Wire) {
    if ReadStage(conn) then (Pending(w) || w.Dead?) && w.q == ReadEeprom(Awaited(conn))
    else if conn == TrySerialLink || conn == AwaitPolling then (Pending(w) || w.Dead?) && w.q == PollingBase
    else w == Quiet
  }

  /** The bits that are up, and those a payload just copied is about to raise. */
  function Claims(t: Task): set<Job> {
    if t.landing > 0 then t.jobs + FLUSH else t.jobs
  }

  /** Section k has been read, at a version less than a full turn behind; unless the application has
      written since, the mirror shows that version. */
  predicate Learned(k: Section, mirror: Image, jobs: set<Job>, u: Unit, seen: Seen) {
    && Home(k) in seen && seen[Home(k)] <= Ver(u, k)
    && (Counted(k) ==> Ver(u, k) < seen[k] + 256)
    && (WriteJob(Home(k)) in jobs
        || ((Counted(k) ==> Counter(mirror, k) == seen[k] % 256)
            && (Ver(u, k) == seen[Home(k)] ==> Bytes(mirror, k) == Bytes(u.mem, k))))
  }

  predicate Knows(conn: Conn, mirror: Image, jobs: set<Job>, u: Unit, seen: Seen) {
    && (forall k: Section :: Home(k) in seen <==> Past(conn, k))
    && (forall k: Section :: Past(conn, k) ==> Learned(k, mirror, jobs, u, seen))
  }

  /** A section reply on its way is less than a full turn of the counter old. */
  predicate Recent(w: Wire, u: Unit) {
    w.Answered? && w.q.ReadEeprom? && Counted(w.q.k) ==> Ver(u, w.q.k) < Ver(w.at, w.q.k) + 256
  }

  predicate InBootloader(conn: Conn) {
    conn.BootloaderState? || conn.BootloaderState1? || conn.BootloaderStateEnd?
  }

  predicate Shake(s: System) {
    var t := s.node.task;
    && t.com == WbmCommunicating && !InBootloader(t.conn) && s.node.at == Top && !t.busy && Proper(t.jobs)
    && RxOk(s.node.rx, s.wire) && WireOk(s.wire, s.unit) && Expects(t.conn, s.wire) && Recent(s.wire, s.unit)
    && (t.conn == LinkConnecting ==> t.retries <= 1 && !t.found)
    && (t.conn == TrySerialLink ==> 1 <= t.retries <= 2 && !t.found)
    && (t.conn == Init ==> !t.found)
    && Knows(t.conn, t.mirror, Claims(t), s.unit, s.seen)
  }

  lemma ChangeKeepsKnows(conn: Conn, mirror: Image, jobs: set<Job>, u: Unit, seen: Seen, k: Section, data: seq<byte>)
    requires Knows(conn, mirror, jobs, u, seen) && Counting(u) && |data| == Count(k)
    requires Counted(k) && k in seen ==> Ver(u, k) + 1 < seen[k] + 256
    ensures Knows(conn, mirror, jobs, Change(u, k, data), seen)
  {
    var v := Change(u, k, data);
    ChangeFacts(u, k, data);
    forall j: Section | Past(conn, j)
      ensures Learned(j, mirror, jobs, v, seen)
    {
      assert Learned(j, mirror, jobs, u, seen);
      assert Home(j) in seen;
    }
  }

  lemma AppKeepsKnows(t: Task, u: Unit, seen: Seen, a: AppStep)
    requires Knows(t.conn, t.mirror, Claims(t), u, seen)
    ensures var now := AppDoes(t, a); Knows(now.conn, now.mirror, Claims(now), u, seen)
  {
    var now := AppDoes(t, a);
    AppFacts(t, a);
    forall j: Section | Past(t.conn, j)
      ensures Learned(j, now.mirror, Claims(now), u, seen)
    {
      assert Learned(j, t.mirror, Claims(t), u, seen);
      assert WriteJob(Home(j)) in FLUSH;
    }
  }

  /** Storing the bytes of section k, as the unit had them at some version, is learning k. */
  lemma LearnSection(conn: Conn, next: Conn, k: Section, mirror: Image, jobs: set<Job>, at: Unit, u: Unit, seen: Seen)
    requires Knows(conn, mirror, jobs, u, seen) && Counting(at) && Later(at, u)
    requires Counted(k) ==> Ver(u, k) < Ver(at, k) + 256
    requires ReadStage(conn) && k == Awaited(conn) && next == NextStage(conn)
    ensures Knows(next, Patch(mirror, Start(k), Bytes(at.mem, k)), jobs, u, seen[Home(k) := Ver(at, k)])
  {
    var now, known := Patch(mirror, Start(k), Bytes(at.mem, k)), seen[Home(k) := Ver(at, k)];
    PatchSection(mirror, k, Bytes(at.mem, k));
    RanksInOrder(conn);
    forall j: Section | Past(next, j)
      ensures Learned(j, now, jobs, u, known)
    {
      CounterIsLast(now, j);
      CounterIsLast(at.mem, j);
      CounterIsLast(mirror, j);
      if !SameBytes(j, k) {
        assert Learned(j, mirror, jobs, u, seen);
      }
    }
  }

  /** Each stage adds the section it waits for. */
  lemma RanksInOrder(conn: Conn)
    requires ReadStage(conn)
    ensures forall j: Section :: Past(NextStage(conn), j) <==> Past(conn, j) || SameBytes(j, Awaited(conn))
    ensures forall j: Section, k: Section :: SameBytes(j, k) <==> Home(j) == Home(k)
  {
  }

  predicate Over(t: Task) {
    t.com == WbmError || (t.com == WbmCommunicating && InBootloader(t.conn))
  }

  predicate Starting(s: System) {
    var t := s.node.task;
    && t.com == WbmInitialize && t.conn == Init && !t.found && !t.busy && s.node.at == Top && Proper(t.jobs)
    && RxOk(s.node.rx, s.wire) && s.wire == Quiet && s.seen == map[]
  }

  predicate Inv(s: System) {
    && Counting(s.unit)
    && (s.node.at != Top ==> s.node.task.com == WbmConnected || s.node.task.com == WbmError)
    && (Over(s.node.task) || Starting(s) || Shake(s) || Connection(s))
  }

  lemma LinkKeepsInv(s: System, c: Clock, io: Io)
    requires Shake(s) && Counting(s.unit) && s.node.task.conn in {Init, LinkConnecting, LinkConnected}
    ensures Shake(Step(s, Loop(c, io)))
  {
  }

  /** A handshake step that hears m. */
  function Shaken(s: System, c: Clock, io: Io, r: Rx, m: Msg): System
    requires m.Valid()
  {
    var e := StepEffect(s.node, Connect(s.node.task, c, m, io), r);
    var w := if GivesUp(s.node, c) then Quiet else Drained(s.wire, m.code, false);
    System(e.node, s.unit, WireAfter(w, e.sent), SeenAfter(s, m.code > RUN_DOWNLOAD, e.node.task))
  }

  lemma StepShakes(s: System, c: Clock, io: Io)
    requires s.node.task.com == WbmCommunicating && s.node.at == Top && Enabled(s, Loop(c, io))
    ensures var (r, m) := Listen(s.node.task, c, s.node.rx, map[]); Step(s, Loop(c, io)) == Shaken(s, c, io, r, m)
  {
  }

  /** Nothing to take, or an error to pass over: the reply stages stay as they are. */
  lemma WaitKeepsInv(s: System, c: Clock, io: Io, r: Rx, m: Msg)
    requires Shake(s) && AwaitsReply(s.node.task.conn) && !TimedOut(s.node.task, c)
    requires m.Valid() && m.code <= RUN_DOWNLOAD && RxOk(r, Drained(s.wire, m.code, false))
    requires m.code < 0 ==> s.wire.Garbled?
    ensures var n := Shaken(s, c, io, r, m); Shake(n) || Over(n.node.task)
  {
    ConnectIs(s.node.task, c, m, io);
    WaitIs(s.node.task, c, m);
  }

  lemma WaitIs(t: Task, c: Clock, m: Msg)
    requires m.Valid() && AwaitsReply(t.conn) && !TimedOut(t, c) && m.code <= RUN_DOWNLOAD
    ensures ReplyStep(t, c, m) == Quietly(if t.conn == TrySerialLink && m.boot then t.(conn := BootloaderState) else t)
  {
  }

  lemma GiveUpKeepsInv(s: System, c: Clock, io: Io, m: Msg)
    requires Shake(s) && AwaitsReply(s.node.task.conn) && TimedOut(s.node.task, c) && !(InMailbox(s.wire) && s.node.task.conn == TrySerialLink)
    requires m.Valid() && m.code == BUFFER_RX_EMPTY
    ensures var n := Shaken(s, c, io, s.node.rx, m); Shake(n) || Over(n.node.task)
  {
    var t := s.node.task;
    ConnectIs(t, c, m, io);
    assert ReplyStep(t, c, m) == Quietly(if t.conn == TrySerialLink then SerialTimeout(t, c) else LinkLost(t));
  }

  lemma FoundKeepsInv(s: System, c: Clock, io: Io, r: Rx, m: Msg)
    requires Shake(s) && s.node.task.conn == TrySerialLink && !TimedOut(s.node.task, c)
    requires m.Valid() && m.code > RUN_DOWNLOAD && RxOk(r, Quiet)
    ensures var n := Shaken(s, c, io, r, m); Shake(n) || Over(n.node.task)
  {
    var t := s.node.task;
    assert Connect(t, c, m, io) == Quietly(SerialMessage(t, m));
  }

  lemma SectionKeepsInv(s: System, c: Clock, io: Io, r: Rx, m: Msg)
    requires Shake(s) && Counting(s.unit) && ReadStage(s.node.task.conn) && !TimedOut(s.node.task, c)
    requires m.Valid() && m.code > RUN_DOWNLOAD && RxOk(r, Quiet) && s.wire.Answered? && m.buf == Padded(s.wire.f)
    ensures Shake(Shaken(s, c, io, r, m))
  {
    var t, w := s.node.task, s.wire;
    var k := Awaited(t.conn);
    var mirror := Patch(t.mirror, Start(k), Bytes(w.at.mem, k));
    SectionReceived(t, k, w.f, w.at.mem);
    LearnSection(t.conn, NextStage(t.conn), k, t.mirror, Claims(t), w.at, s.unit, s.seen);
    SectionIs(t, c, m, io, w.at.mem);
    StoredShakes(s, c, r, mirror, s.seen[Home(k) := Ver(w.at, k)]);
  }

  lemma SectionIs(t: Task, c: Clock, m: Msg, io: Io, mem: Image)
    requires m.Valid() && m.code > RUN_DOWNLOAD && ReadStage(t.conn) && !TimedOut(t, c)
    requires Clip(m.buf, 6, m.buf[5]) == Bytes(mem, Awaited(t.conn))
    ensures Connect(t, c, m, io) ==
            Sending(t.(mirror := Patch(t.mirror, Start(Awaited(t.conn)), Bytes(mem, Awaited(t.conn))), conn := NextStage(t.conn), globalMs := c.stamp),
                    NextAsk(t.conn))
  {
    ConnectIs(t, c, m, io);
  }

  lemma StoredShakes(s: System, c: Clock, r: Rx, mirror: Image, seen: Seen)
    requires Shake(s) && ReadStage(s.node.task.conn) && RxOk(r, Quiet)
    requires Knows(NextStage(s.node.task.conn), mirror, Claims(s.node.task), s.unit, seen)
    ensures var t := s.node.task;
            Shake(System(Node(t.(mirror := mirror, conn := NextStage(t.conn), globalMs := c.stamp), r, Top), s.unit, Asked(NextAsk(t.conn)), seen))
  {
    NextStageAsks(s.node.task.conn);
  }

  lemma PollingKeepsInv(s: System, c: Clock, io: Io, r: Rx, m: Msg)
    requires Shake(s) && s.node.task.conn == AwaitPolling && !TimedOut(s.node.task, c)
    requires m.Valid() && m.code > RUN_DOWNLOAD && RxOk(r, Quiet) && s.wire.Answered?
    ensures Shake(Shaken(s, c, io, r, m))
  {
    var t := s.node.task;
    assert Connect(t, c, m, io) == Quietly(PollingMessage(t, c, m));
  }

  lemma ReplyKeepsInv(s: System, c: Clock, io: Io)
    requires Shake(s) && Counting(s.unit) && AwaitsReply(s.node.task.conn) && Enabled(s, Loop(c, io))
    ensures var n := Step(s, Loop(c, io)); Shake(n) || Over(n.node.task)
  {
    var t := s.node.task;
    var (r, m) := Listen(t, c, s.node.rx, map[]);
    StepShakes(s, c, io);
    if TimedOut(t, c) {
      GiveUpKeepsInv(s, c, io, m);
    } else {
      if s.wire.Answered? { HearReply(s.node.rx, s.wire); }
      else if s.wire.Garbled? { HearGarbage(s.node.rx, s.wire); }
      else { HearNothing(s.node.rx, s.wire); }
      if m.code <= RUN_DOWNLOAD { WaitKeepsInv(s, c, io, r, m); }
      else if t.conn == TrySerialLink { FoundKeepsInv(s, c, io, r, m); }
      else if t.conn == AwaitPolling { PollingKeepsInv(s, c, io, r, m); }
      else { SectionKeepsInv(s, c, io, r, m); }
    }
  }

  lemma AnchorsTrack(u: Unit, c: Counters)
    ensures Tracks(c, Anchors(u, c), u)
  {
    forall k: Section | Counted(k)
      ensures k in Anchors(u, c) && c.Get(k) == Anchors(u, c)[k] % 256 && Anchors(u, c)[k] <= Ver(u, k) < Anchors(u, c)[k] + 256
    {
      AnchorOf(u, c, k);
      AnchorIs(Ver(u, k), c.Get(k));
    }
  }

  lemma AnchorOf(u: Unit, c: Counters, k: Section)
    requires Counted(k)
    ensures k in Anchors(u, c) && Anchors(u, c)[k] == Ver(u, k) - (Ver(u, k) - c.Get(k)) % 256
  {
  }

  lemma AnchorIs(v: int, x: byte)
    ensures (v - (v - x) % 256) % 256 == x
  {
  }

  /** When the handshake ends, the Connected loop takes over a coherent mirror. */
  lemma FinishCovers(t: Task, now: Task, u: Unit, seen: Seen)
    requires Knows(Connected, t.mirror, Claims(t), u, seen) && Counting(u)
    requires now.mirror == t.mirror && now.landing == t.landing && now.ext == MirrorCounters(t.mirror) && now.extInit && t.jobs <= now.jobs && Proper(now.jobs)
    ensures LoopOk(now, Quiet, u, Anchors(u, now.ext))
  {
    AnchorsTrack(u, now.ext);
    forall k: Section | Counted(k)
      ensures Covered(k, now, Quiet, u)
    {
      FinishCoversOne(k, t, now, u, seen);
    }
  }

  lemma FinishCoversOne(k: Section, t: Task, now: Task, u: Unit, seen: Seen)
    requires Learned(k, t.mirror, Claims(t), u, seen) && Counting(u) && Counted(k)
    requires now.mirror == t.mirror && now.landing == t.landing && now.ext == MirrorCounters(t.mirror) && t.jobs <= now.jobs
    ensures Covered(k, now, Quiet, u)
  {
    assert now.ext.Get(k) == Counter(t.mirror, k);
    if seen[k] < Ver(u, k) {
      LessThanATurn(seen[k], Ver(u, k));
    }
  }

  lemma LessThanATurn(a: int, b: int)
    requires a < b < a + 256
    ensures a % 256 != b % 256
  {
  }

  lemma FinishFacts(t: Task, c: Clock, buf: seq<byte>)
    requires Proper(t.jobs) && |buf| == BUFFER
    ensures var now := FinishConnecting(t, c, buf);
            && now.mirror == t.mirror && now.landing == t.landing && now.ext == MirrorCounters(t.mirror) && now.extInit
            && t.jobs <= now.jobs && Proper(now.jobs)
  {
    var was := Connecting(t, c);
    RereadsProper(t.jobs, PollCounters(buf), (if was.extInit then was else Seed(was)).ext);
  }

  lemma FinishKeepsInv(s: System, c: Clock, io: Io)
    requires Shake(s) && Counting(s.unit) && s.node.task.conn == Connected && Enabled(s, Loop(c, io))
    ensures Connection(Step(s, Loop(c, io)))
  {
    var t := s.node.task;
    var (r, m) := Listen(t, c, s.node.rx, map[]);
    StepShakes(s, c, io);
    assert Connect(t, c, m, io) == Quietly(FinishConnecting(t, c, m.buf));
    FinishFacts(t, c, m.buf);
    FinishCovers(t, FinishConnecting(t, c, m.buf), s.unit, s.seen);
  }

  lemma BootloaderStays(s: System, c: Clock, io: Io)
    requires s.node.task.com == WbmCommunicating && InBootloader(s.node.task.conn) && s.node.at == Top && Enabled(s, Loop(c, io))
    ensures Over(Step(s, Loop(c, io)).node.task)
  {
    var t := s.node.task;
    var (r, m) := Listen(t, c, s.node.rx, map[]);
    StepShakes(s, c, io);
    assert Connect(t, c, m, io) == RestStep(t, c, m, io);
  }

  lemma ErrorStays(s: System, c: Clock, io: Io)
    requires s.node.task.com == WbmError && Enabled(s, Loop(c, io))
    ensures Step(s, Loop(c, io)).node.task.com == WbmError
  {
    if s.node.at == Reading {
      var (r, m) := Hear(s.node.rx, map[]);
      DigestPhase(s.node.task, c, m);
    }
  }

  lemma LoopKeepsInv(s: System, c: Clock, io: Io)
    requires Inv(s) && Enabled(s, Loop(c, io))
    ensures Inv(Step(s, Loop(c, io)))
  {
    var t := s.node.task;
    if t.com == WbmError { ErrorStays(s, c, io); }
    else if t.com == WbmInitialize { StartKeepsInv(s, c, io); }
    else if t.com == WbmConnected { LoopKeepsConnection(s, c, io); }
    else { ConnectKeepsInv(s, c, io); }
  }

  lemma StartKeepsInv(s: System, c: Clock, io: Io)
    requires Starting(s) && Counting(s.unit)
    ensures Shake(Step(s, Loop(c, io)))
  {
  }

  lemma ConnectKeepsInv(s: System, c: Clock, io: Io)
    requires Inv(s) && s.node.task.com == WbmCommunicating && Enabled(s, Loop(c, io))
    ensures Inv(Step(s, Loop(c, io)))
  {
    var t := s.node.task;
    StepShakes(s, c, io);
    if InBootloader(t.conn) { BootloaderStays(s, c, io); }
    else if t.conn in {Init, LinkConnecting, LinkConnected} { LinkKeepsInv(s, c, io); }
    else if t.conn == Connected { FinishKeepsInv(s, c, io); }
    else { ReplyKeepsInv(s, c, io); }
  }
}
