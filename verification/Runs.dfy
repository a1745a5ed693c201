/** Every run of the firmware with a unit: coherence in all of its states, and
    what the handshake leaves. */
module Runs {
  import opened Layout
  import opened Frame
  import opened Requests
  import opened Link
  import opened Nodes
  import opened Systems
  import opened Coherence
  import opened Handshake
  import Mailbox

  // ---- The two things that lose a section -----------------------------------

  /** A payload's bits go up while a counted section's write goes out, and the payload has brought that
      section other bytes than the frame carries.  Not if the unit moves a counter with every write:
      then the acknowledgement gives the overtaken write away. */
  predicate Undercut(s: System) {
    var n := s.node;
    && n.at.Clearing? && n.at.j.WriteJob? && Counted(n.at.j.k) && n.task.landing > 0
    && (s.wire.Asked? || s.wire.Answered?) && s.wire.q.WriteEeprom?
    && !Stored(n.task.mirror, s.wire.q.k, s.wire.q.data) && !s.unit.steady
  }

  /** Damaging this answer is harmless: the Connected loop has not asked for a section, nor for a counted
      write that leaves the unit's counter where it was. */
  predicate Harmless(s: System, bump: bool) {
    s.wire.Asked? ==>
      || s.node.task.com != WbmConnected
      || (!s.wire.q.ReadEeprom? && (s.wire.q.WriteEeprom? && Counted(s.wire.q.k) ==> bump))
  }

  predicate Safe(s: System, a: Event) {
    match a
    case App(step) => step.Raise? ==> !Undercut(s)
    case Garble(_, bump) => Harmless(s, bump)
    case _ => true
  }

  // ---- Every step, every run ------------------------------------------------

  lemma ChangeKeepsWire(w: Wire, u: Unit, k: Section, data: seq<byte>)
    requires Counting(u) && |data| == Count(k) && WireOk(w, u)
    ensures WireOk(w, Change(u, k, data))
  {
    if w.Answered? {
      LaterChange(w.at, u, k, data);
    }
  }

  lemma ChangeKeepsConnection(s: System, k: Section, data: seq<byte>)
    requires Connection(s) && Counting(s.unit) && |data| == Count(k) && Fresh(s, k)
    ensures Connection(s.(unit := Change(s.unit, k, data)))
  {
    ChangeKeepsWire(s.wire, s.unit, k, data);
    ChangeKeepsLoop(s.node.task, s.wire, s.unit, s.seen, k, data);
  }

  lemma ChangeKeepsShake(s: System, k: Section, data: seq<byte>)
    requires Shake(s) && Counting(s.unit) && |data| == Count(k) && Fresh(s, k)
    ensures Shake(s.(unit := Change(s.unit, k, data)))
  {
    var t := s.node.task;
    ChangeKeepsWire(s.wire, s.unit, k, data);
    ChangeKeepsKnows(t.conn, t.mirror, Claims(t), s.unit, s.seen, k, data);
    ChangedVersions(s.unit, k, data);
  }

  lemma UnitChangeKeepsInv(s: System, k: Section, data: seq<byte>)
    requires Inv(s) && Enabled(s, UnitChange(k, data))
    ensures Inv(Step(s, UnitChange(k, data)))
  {
    ChangeFacts(s.unit, k, data);
    if Connection(s) { ChangeKeepsConnection(s, k, data); }
    else if Shake(s) { ChangeKeepsShake(s, k, data); }
  }

  lemma AppKeepsWindow(t: Task, w: Wire, u: Unit, j: Job, a: AppStep)
    requires Windowed(t, w, u, j)
    requires a.Raise? && t.landing > 0 && j.WriteJob? && Counted(j.k) && !w.Garbled? ==> Stored(t.mirror, w.q.k, w.q.data) || u.steady
    ensures Windowed(AppDoes(t, a), w, u, j)
  {
  }

  /** The window clause survives a step of the application, unless it undercuts. */
  lemma AppKeepsConnection(s: System, a: AppStep)
    requires Connection(s) && Safe(s, Event.App(a))
    ensures Connection(s.(node := s.node.(task := AppDoes(s.node.task, a))))
  {
    var t := s.node.task;
    AppFacts(t, a);
    AppKeepsLoop(t, s.wire, s.unit, s.seen, a);
    if s.node.at.Clearing? { AppKeepsWindow(t, s.wire, s.unit, s.node.at.j, a); }
  }

  lemma AppKeepsInv(s: System, a: AppStep)
    requires Inv(s) && Safe(s, Event.App(a))
    ensures Inv(Step(s, Event.App(a)))
  {
    var t := s.node.task;
    AppFacts(t, a);
    if Connection(s) { AppKeepsConnection(s, a); }
    else if Shake(s) { AppKeepsKnows(t, s.unit, s.seen, a); }
  }

  lemma ArrivesInRx(rx: Rx, w: Wire, now: Wire)
    requires RxOk(rx, w) && !InMailbox(w) && InMailbox(now) && 0 < |now.f| < BUFFER
    ensures RxOk(Mailbox.Arrive(rx, now.f), now)
  {
    Mailbox.ArriveIdle(rx, now.f);
  }

  lemma LaterSelf(u: Unit)
    ensures Later(u, u)
  {
  }

  lemma ReactionFacts(s: System, bump: bool)
    requires CanAnswer(s, bump) && Counting(s.unit)
    ensures var q := s.wire.q;
            var u := Reaction(s.unit, q, bump);
            && Counting(u) && u.steady == s.unit.steady
            && (q.WriteEeprom? ==> Stored(u.mem, q.k, q.data))
            && (q.WriteEeprom? && bump ==> Ver(u, q.k) == Ver(s.unit, q.k) + 1)
  {
    if s.wire.q.WriteEeprom? && bump {
      ChangeFacts(s.unit, s.wire.q.k, s.wire.q.data);
    }
  }

  lemma AnswerKeepsConnection(s: System, f: seq<byte>, bump: bool)
    requires Connection(s) && Counting(s.unit) && Enabled(s, Answer(f, bump))
    ensures Connection(Step(s, Answer(f, bump)))
  {
    var t, q := s.node.task, s.wire.q;
    var u := Reaction(s.unit, q, bump);
    ReactionFacts(s, bump);
    LaterSelf(u);
    ArrivesInRx(s.node.rx, s.wire, Answered(q, f, u));
    if q.WriteEeprom? && bump { ChangeKeepsLoop(t, s.wire, s.unit, s.seen, q.k, q.data); }
    AnswerKeepsLoop(t, q, f, u, s.seen);
  }

  lemma GarbleKeepsConnection(s: System, f: seq<byte>, bump: bool)
    requires Connection(s) && Counting(s.unit) && Enabled(s, Garble(f, bump)) && Harmless(s, bump)
    ensures Connection(Step(s, Garble(f, bump)))
  {
    var t, q := s.node.task, s.wire.q;
    var u := Reaction(s.unit, q, bump);
    ReactionFacts(s, bump);
    ArrivesInRx(s.node.rx, s.wire, Garbled(q, f));
    if q.WriteEeprom? && bump { ChangeKeepsLoop(t, s.wire, s.unit, s.seen, q.k, q.data); }
    GarbleKeepsLoop(t, q, f, u, s.seen);
  }

  lemma StaticKeepsConnection(s: System, f: seq<byte>)
    requires Connection(s) && Enabled(s, Static(f))
    ensures Connection(Step(s, Static(f)))
  {
    ArrivesInRx(s.node.rx, s.wire, Noise(f));
    LoopQuiets(s.node.task, Noise(f), s.unit, s.seen);
  }

  lemma LoopQuiets(t: Task, w: Wire, u: Unit, seen: Seen)
    requires LoopOk(t, Quiet, u, seen) && w.Noise?
    ensures LoopOk(t, w, u, seen)
  {
    forall k: Section | Counted(k)
      ensures Covered(k, t, w, u)
    {
      assert Covered(k, t, Quiet, u);
    }
  }

  /** The handshake asks for no write: an answer leaves the unit as it is. */
  lemma AnswerKeepsShake(s: System, f: seq<byte>, bump: bool, damaged: bool)
    requires Shake(s) && Counting(s.unit) && Enabled(s, if damaged then Garble(f, bump) else Answer(f, bump))
    ensures Shake(Step(s, if damaged then Garble(f, bump) else Answer(f, bump)))
  {
    var q := s.wire.q;
    LaterSelf(s.unit);
    assert !q.WriteEeprom?;
    ArrivesInRx(s.node.rx, s.wire, if damaged then Garbled(q, f) else Answered(q, f, s.unit));
  }

  lemma AnswerKeepsInv(s: System, f: seq<byte>, bump: bool)
    requires Inv(s) && Enabled(s, Answer(f, bump))
    ensures Inv(Step(s, Answer(f, bump)))
  {
    ReactionFacts(s, bump);
    if Connection(s) { AnswerKeepsConnection(s, f, bump); }
    else if Shake(s) { AnswerKeepsShake(s, f, bump, false); }
  }

  lemma GarbleKeepsInv(s: System, f: seq<byte>, bump: bool)
    requires Inv(s) && Enabled(s, Garble(f, bump)) && Harmless(s, bump)
    ensures Inv(Step(s, Garble(f, bump)))
  {
    ReactionFacts(s, bump);
    if Connection(s) { GarbleKeepsConnection(s, f, bump); }
    else if Shake(s) { AnswerKeepsShake(s, f, bump, true); }
  }

  lemma StepKeepsInv(s: System, a: Event)
    requires Inv(s) && Enabled(s, a) && Safe(s, a)
    ensures Inv(Step(s, a))
  {
    match a
    case Loop(c, io) => LoopKeepsInv(s, c, io);
    case Answer(f, bump) => AnswerKeepsInv(s, f, bump);
    case Garble(f, bump) => GarbleKeepsInv(s, f, bump);
    case Static(f) => if Connection(s) { StaticKeepsConnection(s, f); }
    case UnitChange(k, data) => UnitChangeKeepsInv(s, k, data);
    case App(step) => AppKeepsInv(s, step);
  }

  /** Power-up next to any unit. */
  function PowerOn(mirror: Image, unit: Unit): System {
    System(Node(Boot(mirror), Mailbox.POWER_ON, Top), unit, Quiet, map[])
  }

  /** Every action was possible when it was taken. */
  predicate Legal(s: System, run: seq<Event>)
    decreases |run|
  {
    run == [] || (Enabled(s, run[0]) && Legal(Step(s, run[0]), run[1..]))
  }

  function After(s: System, run: seq<Event>): System
    requires Legal(s, run)
    decreases |run|
  {
    if run == [] then s else After(Step(s, run[0]), run[1..])
  }

  /** No event of the run was one of the two that lose a section. */
  predicate Guarded(s: System, run: seq<Event>)
    requires Legal(s, run)
    decreases |run|
  {
    run == [] || (Safe(s, run[0]) && Guarded(Step(s, run[0]), run[1..]))
  }

  lemma {:induction false} RunKeepsInv(s: System, run: seq<Event>)
    requires Inv(s) && Legal(s, run) && Guarded(s, run)
    ensures Inv(After(s, run))
    decreases |run|
  {
    if run != [] {
      StepKeepsInv(s, run[0]);
      RunKeepsInv(Step(s, run[0]), run[1..]);
    }
  }

  lemma PowerOnInv(mirror: Image, unit: Unit)
    requires Counting(unit)
    ensures Inv(PowerOn(mirror, unit))
  {
  }

  // ---- Main results ---------------------------------------------------------

  /** Cache coherence: in every Connected state of every run in which no payload undercuts a write and
      no read's answer is damaged, each counted section of the mirror equals the unit's, or its bit is
      up or about to be, or a request for it is under way, or its counter has moved since the firmware
      last recorded it. */
  lemma CoherentInEveryRun(mirror: Image, unit: Unit, run: seq<Event>, k: Section)
    requires Counting(unit) && Legal(PowerOn(mirror, unit), run) && Guarded(PowerOn(mirror, unit), run) && Counted(k)
    ensures var s := After(PowerOn(mirror, unit), run);
            s.node.task.com == WbmConnected ==> Covered(k, s.node.task, s.wire, s.unit)
  {
    PowerOnInv(mirror, unit);
    RunKeepsInv(PowerOn(mirror, unit), run);
  }

  /** No answer in this run is damaged. */
  predicate Undamaged(run: seq<Event>) {
    forall i :: 0 <= i < |run| ==> !run[i].Garble?
  }

  lemma StepKeepsUnit(s: System, a: Event)
    requires Enabled(s, a)
    ensures Step(s, a).unit.steady == s.unit.steady
  {
  }

  lemma {:induction false} SteadyIsGuarded(s: System, run: seq<Event>)
    requires Legal(s, run) && s.unit.steady && Undamaged(run)
    ensures Guarded(s, run)
    decreases |run|
  {
    if run != [] {
      StepKeepsUnit(s, run[0]);
      SteadyIsGuarded(Step(s, run[0]), run[1..]);
    }
  }

  /** With a unit that moves a counter at every write no payload does harm, wherever it falls. */
  lemma CoherentWithSteadyUnit(mirror: Image, unit: Unit, run: seq<Event>, k: Section)
    requires Counting(unit) && unit.steady && Legal(PowerOn(mirror, unit), run) && Undamaged(run) && Counted(k)
    ensures var s := After(PowerOn(mirror, unit), run);
            s.node.task.com == WbmConnected ==> Covered(k, s.node.task, s.wire, s.unit)
  {
    SteadyIsGuarded(PowerOn(mirror, unit), run);
    CoherentInEveryRun(mirror, unit, run, k);
  }

  lemma QuiescentSection(s: System, k: Section)
    requires Inv(s) && s.node.task.com == WbmConnected && Counted(k)
    requires s.node.task.jobs == {} && s.node.task.landing == 0 && !Outstanding(s.node) && s.node.task.ext == MirrorCounters(s.unit.mem)
    ensures Bytes(s.node.task.mirror, k) == Bytes(s.unit.mem, k)
  {
    assert Covered(k, s.node.task, s.wire, s.unit);
  }

  /** With nothing pending, nothing under way and no counter ahead, the mirror is the unit's memory
      on every counted section. */
  lemma QuiescentMirrors(s: System, i: nat)
    requires Inv(s) && s.node.task.com == WbmConnected
    requires s.node.task.jobs == {} && s.node.task.landing == 0 && !Outstanding(s.node) && s.node.task.ext == MirrorCounters(s.unit.mem)
    requires exists k: Section :: Counted(k) && InSection(i, k)
    ensures s.node.task.mirror[i] == s.unit.mem[i]
  {
    var k: Section :| Counted(k) && InSection(i, k);
    QuiescentSection(s, k);
    SameByte(s.node.task.mirror, s.unit.mem, k, i);
  }

  // ---- What the handshake leaves --------------------------------------------

  predicate Early(s: System) {
    Starting(s) || Shake(s)
  }

  /** Nobody has changed anything yet: no request bit is up, every version the firmware has seen is
      the unit's, and the bytes no message carries are as they were. */
  predicate Untouched(s: System, unit: Unit, mirror: Image) {
    && s.unit == unit && (s.wire.Answered? ==> s.wire.at == unit)
    && s.node.task.jobs == {} && s.node.task.landing == 0
    && (forall k: Section :: k in s.seen ==> s.seen[k] == Ver(unit, k))
    && (forall i: nat :: Unassigned(i) && i < EEPROM_SIZE ==> s.node.task.mirror[i] == mirror[i])
  }

  lemma SectionUntouched(s: System, c: Clock, io: Io, r: Rx, m: Msg, unit: Unit, mirror: Image)
    requires Shake(s) && Untouched(s, unit, mirror) && ReadStage(s.node.task.conn) && !TimedOut(s.node.task, c)
    requires m.Valid() && m.code > RUN_DOWNLOAD && s.wire.Answered? && m.buf == Padded(s.wire.f)
    ensures Untouched(Shaken(s, c, io, r, m), unit, mirror)
  {
    var t := s.node.task;
    var k := Awaited(t.conn);
    assert Connect(t, c, m, io) == SectionMessage(t, c, m);
    NextStageAsks(t.conn);
    SectionReceived(t, k, s.wire.f, unit.mem);
    PatchSection(t.mirror, k, Bytes(unit.mem, k));
  }

  /** Only a section reply touches the mirror before the last step. */
  lemma LinkLeavesMirror(t: Task, c: Clock)
    ensures LinkStep(t, c).task.mirror == t.mirror && LinkStep(t, c).task.jobs == t.jobs && LinkStep(t, c).task.landing == t.landing
    ensures LinkStep(t, c).task.com == t.com
  {
  }

  lemma ReplyLeavesMirror(t: Task, c: Clock, m: Msg)
    requires m.Valid() && AwaitsReply(t.conn) && (ReadStage(t.conn) ==> TimedOut(t, c) || m.code <= RUN_DOWNLOAD)
    ensures ReplyStep(t, c, m).task.mirror == t.mirror && ReplyStep(t, c, m).task.jobs == t.jobs && ReplyStep(t, c, m).task.landing == t.landing
    ensures ReplyStep(t, c, m).task.com != WbmConnected || t.com == WbmConnected
  {
  }

  lemma OthersUntouched(s: System, c: Clock, io: Io, r: Rx, m: Msg, unit: Unit, mirror: Image)
    requires Shake(s) && Untouched(s, unit, mirror) && m.Valid() && s.node.task.conn != Connected
    requires ReadStage(s.node.task.conn) ==> m.code <= RUN_DOWNLOAD
    ensures Untouched(Shaken(s, c, io, r, m), unit, mirror)
  {
    var t := s.node.task;
    if AwaitsReply(t.conn) {
      assert Connect(t, c, m, io) == ReplyStep(t, c, m);
      ReplyLeavesMirror(t, c, m);
    } else {
      assert Connect(t, c, m, io) == LinkStep(t, c);
      LinkLeavesMirror(t, c);
    }
  }

  lemma ShakeUntouched(s: System, c: Clock, io: Io, unit: Unit, mirror: Image)
    requires Shake(s) && Counting(s.unit) && Untouched(s, unit, mirror) && Enabled(s, Loop(c, io))
    ensures Early(Step(s, Loop(c, io))) ==> Untouched(Step(s, Loop(c, io)), unit, mirror)
  {
    if s.node.task.conn == Connected {
      FinishIsLate(s, c, io);
    } else {
      StepShakes(s, c, io);
      ShakenUntouched(s, c, io, unit, mirror);
    }
  }

  lemma FinishIsLate(s: System, c: Clock, io: Io)
    requires Shake(s) && Counting(s.unit) && s.node.task.conn == Connected && Enabled(s, Loop(c, io))
    ensures !Early(Step(s, Loop(c, io)))
  {
    FinishKeepsInv(s, c, io);
    ConnectionIsLate(Step(s, Loop(c, io)));
  }

  lemma ConnectionIsLate(s: System)
    requires Connection(s)
    ensures !Early(s)
  {
  }

  lemma ShakenUntouched(s: System, c: Clock, io: Io, unit: Unit, mirror: Image)
    requires Shake(s) && Untouched(s, unit, mirror) && s.node.task.conn != Connected
    ensures var (r, m) := Listen(s.node.task, c, s.node.rx, map[]); Untouched(Shaken(s, c, io, r, m), unit, mirror)
  {
    var t := s.node.task;
    var (r, m) := Listen(t, c, s.node.rx, map[]);
    if ReadStage(t.conn) && !TimedOut(t, c) {
      if s.wire.Answered? { HearReply(s.node.rx, s.wire); }
      else if s.wire.Garbled? { HearGarbage(s.node.rx, s.wire); }
      else { HearNothing(s.node.rx, s.wire); }
    }
    if ReadStage(t.conn) && m.code > RUN_DOWNLOAD {
      SectionUntouched(s, c, io, r, m, unit, mirror);
    } else {
      OthersUntouched(s, c, io, r, m, unit, mirror);
    }
  }

  /** No change at the unit and no write of the application. */
  predicate Undisturbed(run: seq<Event>) {
    forall i :: 0 <= i < |run| ==> Untouching(run[i])
  }

  predicate Untouching(a: Event) {
    a.Loop? || a.Answer? || a.Garble? || a.Static?
  }

  lemma AnswerUntouched(s: System, f: seq<byte>, bump: bool, damaged: bool, unit: Unit, mirror: Image)
    requires Early(s) && Untouched(s, unit, mirror) && Enabled(s, if damaged then Garble(f, bump) else Answer(f, bump))
    ensures Untouched(Step(s, if damaged then Garble(f, bump) else Answer(f, bump)), unit, mirror)
  {
    assert !s.wire.q.WriteEeprom?;
    assert Reaction(s.unit, s.wire.q, bump) == unit;
  }

  lemma BeginUntouched(s: System, c: Clock, io: Io, unit: Unit, mirror: Image)
    requires Starting(s) && Untouched(s, unit, mirror) && Enabled(s, Loop(c, io))
    ensures Untouched(Step(s, Loop(c, io)), unit, mirror)
  {
  }

  lemma StepUntouched(s: System, a: Event, unit: Unit, mirror: Image)
    requires Inv(s) && Early(s) && Untouched(s, unit, mirror) && Enabled(s, a) && Untouching(a)
    ensures Early(Step(s, a)) ==> Untouched(Step(s, a), unit, mirror)
  {
    match a
    case Loop(c, io) =>
      if Shake(s) { ShakeUntouched(s, c, io, unit, mirror); } else { BeginUntouched(s, c, io, unit, mirror); }
    case Answer(f, bump) => AnswerUntouched(s, f, bump, false, unit, mirror);
    case Garble(f, bump) => AnswerUntouched(s, f, bump, true, unit, mirror);
    case Static(f) =>
  }

  /** The Connected loop, the bootloader states and WBM_Error. */
  predicate Late(s: System) {
    s.node.task.com == WbmConnected || Over(s.node.task)
  }

  /** Where a message is taken or a job served nothing changes phase. */
  lemma InnerTickPhase(n: Node, c: Clock, io: Io)
    requires n.at != Top
    ensures SamePhase(n.task, TickEffect(n, c, io, map[]).node.task)
  {
    if n.at == Reading {
      var (r, m) := Hear(n.rx, map[]);
      DigestPhase(n.task, c, m);
    }
  }

  /** Once the handshake is over it is over. */
  lemma LateStaysLate(s: System, a: Event)
    requires Late(s) && Enabled(s, a)
    ensures Late(Step(s, a))
  {
    match a
    case Loop(c, io) => LateLoops(s, c, io);
    case App(step) => AppFacts(s.node.task, step);
    case Answer(f, bump) =>
    case Garble(f, bump) =>
    case Static(f) =>
    case UnitChange(k, data) =>
  }

  lemma LateLoops(s: System, c: Clock, io: Io)
    requires Late(s) && Enabled(s, Loop(c, io))
    ensures Late(Looped(s, c, io))
  {
    if s.node.at != Top { InnerTickPhase(s.node, c, io); }
    else if s.node.task.com == WbmConnected { TimerFacts(s.node.task, c); }
    else if s.node.task.com == WbmError { ErrorStays(s, c, io); }
    else { BootloaderStays(s, c, io); }
  }

  /** In the handshake nothing is unsafe. */
  lemma EarlyIsSafe(s: System, a: Event)
    requires Early(s)
    ensures Safe(s, a)
  {
  }

  lemma InvIsEarlyOrLate(s: System)
    requires Inv(s)
    ensures Early(s) || Late(s)
  {
  }

  /** Over any run: still in the handshake and all invariants hold, or past it. */
  lemma {:induction false} RunEarly(s: System, run: seq<Event>)
    requires Legal(s, run) && ((Inv(s) && Early(s)) || Late(s))
    ensures var e := After(s, run); (Inv(e) && Early(e)) || Late(e)
    decreases |run|
  {
    if run != [] {
      var n := Step(s, run[0]);
      if Late(s) {
        LateStaysLate(s, run[0]);
      } else {
        EarlyIsSafe(s, run[0]);
        StepKeepsInv(s, run[0]);
        InvIsEarlyOrLate(n);
      }
      RunEarly(n, run[1..]);
    }
  }

  lemma {:induction false} RunUntouched(s: System, run: seq<Event>, unit: Unit, mirror: Image)
    requires Legal(s, run) && Undisturbed(run)
    requires (Inv(s) && Early(s) && Untouched(s, unit, mirror)) || Late(s)
    ensures var e := After(s, run); (Inv(e) && Early(e) && Untouched(e, unit, mirror)) || Late(e)
    decreases |run|
  {
    if run != [] {
      var n := Step(s, run[0]);
      if Late(s) {
        LateStaysLate(s, run[0]);
      } else {
        EarlyIsSafe(s, run[0]);
        StepKeepsInv(s, run[0]);
        StepUntouched(s, run[0], unit, mirror);
        InvIsEarlyOrLate(n);
      }
      RunUntouched(n, run[1..], unit, mirror);
    }
  }

  /** At CLKTSConnectState_Connected, before the loop case changes. */
  predicate Arriving(s: System) {
    s.node.task.com == WbmCommunicating && s.node.task.conn == Connected
  }

  /** Handshake correctness: when the handshake with an undisturbed unit reaches its last state, the
      mirror holds the unit's byte wherever a section covers it, and its own old byte elsewhere. */
  lemma HandshakeMirrors(mirror: Image, unit: Unit, run: seq<Event>, i: nat)
    requires Counting(unit) && Legal(PowerOn(mirror, unit), run) && Undisturbed(run) && i < EEPROM_SIZE
    ensures var s := After(PowerOn(mirror, unit), run);
            Arriving(s) ==> s.node.task.mirror[i] == if Unassigned(i) then mirror[i] else unit.mem[i]
  {
    PowerOnInv(mirror, unit);
    RunUntouched(PowerOn(mirror, unit), run, unit, mirror);
    var s := After(PowerOn(mirror, unit), run);
    if Arriving(s) {
      LearnedMirrors(s, unit, mirror, i);
    }
  }

  lemma LearnedMirrors(s: System, unit: Unit, mirror: Image, i: nat)
    requires Shake(s) && s.node.task.conn == Connected && Untouched(s, unit, mirror) && i < EEPROM_SIZE
    ensures s.node.task.mirror[i] == if Unassigned(i) then mirror[i] else unit.mem[i]
  {
    if !Unassigned(i) {
      var k: Section :| InSection(i, k);
      LearnedSection(s, unit, mirror, k);
      SameByte(s.node.task.mirror, unit.mem, k, i);
    }
  }

  lemma LearnedSection(s: System, unit: Unit, mirror: Image, k: Section)
    requires Shake(s) && s.node.task.conn == Connected && Untouched(s, unit, mirror)
    ensures Bytes(s.node.task.mirror, k) == Bytes(unit.mem, k)
  {
    assert Past(Connected, k) && Learned(k, s.node.task.mirror, Claims(s.node.task), unit, s.seen);
  }

  /** In any run, disturbed or not: a section whose version is still the one the handshake read is in
      the mirror, or a write of the application to it is pending. */
  lemma HandshakeLearns(mirror: Image, unit: Unit, run: seq<Event>, k: Section)
    requires Counting(unit) && Legal(PowerOn(mirror, unit), run)
    ensures var s := After(PowerOn(mirror, unit), run);
            var t := s.node.task;
            Arriving(s) ==>
              && Home(k) in s.seen
              && (Ver(s.unit, k) == s.seen[Home(k)] ==> Bytes(t.mirror, k) == Bytes(s.unit.mem, k) || WriteJob(Home(k)) in Claims(t))
  {
    PowerOnInv(mirror, unit);
    RunEarly(PowerOn(mirror, unit), run);
    var s := After(PowerOn(mirror, unit), run);
    if Arriving(s) {
      assert Past(Connected, k) && Learned(k, s.node.task.mirror, Claims(s.node.task), s.unit, s.seen);
    }
  }
}
