/** What becomes of a write of the application: which section writes go out, in
    which order and with which bytes, and what the unit ends up with. */
module Flush {
  import opened Layout
  import opened Frame
  import opened Requests
  import opened Link
  import opened Nodes
  import opened Systems
  import opened Coherence
  import opened Handshake
  import opened Runs

  const ORDER: seq<Section> := [Info, SettingPar, SetTemp, DayProg, HWSetting]

  function Place(k: Section): nat {
    match k
    case Info => 0
    case SettingPar => 1
    case SetTemp => 2
    case DayProg => 3
    case HWSetting => 4
    case Configuration => 5
  }

  /** The payload's counter byte of section k is the unit's.  The first acknowledgement, which is
      Info's, does not make the firmware re-read such a section before it has written it. */
  predicate Agrees(k: Section, img: Image, mem: Image) {
    k == Info || !Counted(k) || Counter(img, k) == Counter(mem, k)
  }

  /** What is written to section k: the payload, or, where the counters disagree, what the unit had. */
  function Expected(k: Section, img: Image, mem: Image): seq<byte> {
    if Agrees(k, img, mem) then Bytes(img, k) else Bytes(mem, k)
  }

  /** The acknowledgement of the write to Info has been taken. */
  predicate InfoAcked(w: Wire, n: nat) {
    n > 1 || (n == 1 && !(Pending(w) && w.q.WriteEeprom?))
  }

  /** Section k is still to be written. */
  predicate Unwritten(k: Section, t: Task, w: Wire, img: Image, mem: Image, n: nat) {
    && WriteJob(k) in t.jobs
    && (Counted(k) ==> t.ext.Get(k) == Counter(mem, k))
    && if InfoAcked(w, n) && !Agrees(k, img, mem) then
         && Counter(t.mirror, k) == Counter(mem, k)
         && (ReadJob(k) in t.jobs || Carries(w, k) || Bytes(t.mirror, k) == Bytes(mem, k))
       else
         Bytes(t.mirror, k) == Bytes(img, k) && ReadJob(k) !in t.jobs && !Carries(w, k)
  }

  /** Section k has been written: the request is still unanswered, or the unit holds its bytes. */
  predicate Written(k: Section, t: Task, w: Wire, u: Unit, img: Image, mem: Image) {
    && WriteJob(k) !in t.jobs
    && (w == Asked(WriteEeprom(k, Expected(k, img, mem))) || Stored(u.mem, k, Expected(k, img, mem)))
  }

  predicate Older(k: Section, w: Wire, u: Unit, mem: Image) {
    Bytes(u.mem, k) == Bytes(mem, k) && (w.Answered? ==> Bytes(w.at.mem, k) == Bytes(mem, k))
  }

  /** After n section writes of payload image img to a unit that held mem. */
  predicate Flushing(t: Task, w: Wire, u: Unit, img: Image, mem: Image, n: nat) {
    && n <= 5 && Proper(t.jobs) && t.extInit && (w.Quiet? || w.Asked? || w.Answered?)
    && (!w.Quiet? && w.q.WriteEeprom? ==> Place(w.q.k) < n && w.q.data == Expected(w.q.k, img, mem))
    && (!w.Quiet? && w.q.ReadEeprom? ==> Counted(w.q.k))
    && (forall k: Section :: n <= Place(k) < 5 ==> Unwritten(k, t, w, img, mem, n) && Older(k, w, u, mem))
    && (forall k: Section :: Place(k) < n ==> Written(k, t, w, u, img, mem))
  }

  // ---- Replies --------------------------------------------------------------

  lemma PollFlushing(t: Task, f: seq<byte>, at: Unit, u: Unit, img: Image, mem: Image, n: nat)
    requires Flushing(t, Answered(PollingBase, f, at), u, img, mem, n) && Replies(PollingBase, f, at.mem)
    ensures Flushing(PollingParse(t, Padded(f)), Quiet, u, img, mem, n)
  {
    var w := Answered(PollingBase, f, at);
    var cnt := PollCounters(Padded(f));
    var now := t.(jobs := t.jobs + Rereads(cnt, t.ext), ext := cnt);
    assert PollingParse(t, Padded(f)) == now;
    RereadsProper(t.jobs, cnt, t.ext);
    forall k: Section | n <= Place(k) < 5
      ensures Unwritten(k, now, Quiet, img, mem, n) && Older(k, Quiet, u, mem)
    {
      assert Unwritten(k, t, w, img, mem, n) && Older(k, w, u, mem);
      PollLeaves(t, cnt, at.mem, mem, k);
    }
    forall k: Section | Place(k) < n
      ensures Written(k, now, Quiet, u, img, mem)
    {
      assert Written(k, t, w, u, img, mem);
    }
  }

  /** A counter the unit has not moved raises no read bit. */
  lemma PollLeaves(t: Task, cnt: Counters, at: Image, mem: Image, k: Section)
    requires cnt == MirrorCounters(at) && Bytes(at, k) == Bytes(mem, k) && (Counted(k) ==> t.ext.Get(k) == Counter(mem, k))
    ensures Counted(k) ==> cnt.Get(k) == Counter(mem, k)
    ensures ReadJob(k) !in Rereads(cnt, t.ext)
  {
    CounterIsLast(at, k);
    CounterIsLast(mem, k);
  }

  /** The bytes of another section do nothing to section k, still to be written. */
  lemma ReadOther(k: Section, t: Task, j: Section, w: Wire, data: seq<byte>, img: Image, mem: Image, n: nat)
    requires Unwritten(k, t, w, img, mem, n) && n <= Place(k) < 5 && j != k
    requires w.Answered? && w.q == ReadEeprom(j) && Counted(j) && |data| == Count(j)
    ensures Unwritten(k, t.(mirror := Patch(t.mirror, Start(j), data)), Quiet, img, mem, n)
  {
    var mirror := Patch(t.mirror, Start(j), data);
    assert Bytes(mirror, k) == Bytes(t.mirror, k) by {
      PatchSection(t.mirror, j, data);
    }
    CounterIsLast(mirror, k);
    CounterIsLast(t.mirror, k);
    assert Counter(mirror, k) == Counter(t.mirror, k);
  }

  /** Its own bytes, come from the unit, are what it is then to be written with. */
  lemma ReadOwn(k: Section, t: Task, w: Wire, img: Image, mem: Image, n: nat)
    requires Unwritten(k, t, w, img, mem, n) && w.Answered? && w.q == ReadEeprom(k) && Counted(k)
    ensures Unwritten(k, t.(mirror := Patch(t.mirror, Start(k), Bytes(mem, k))), Quiet, img, mem, n)
  {
    var mirror := Patch(t.mirror, Start(k), Bytes(mem, k));
    PatchSection(t.mirror, k, Bytes(mem, k));
    CounterIsLast(mirror, k);
    CounterIsLast(mem, k);
  }

  lemma ReadFlushing(t: Task, j: Section, f: seq<byte>, at: Unit, u: Unit, img: Image, mem: Image, n: nat)
    requires Flushing(t, Answered(ReadEeprom(j), f, at), u, img, mem, n) && Replies(ReadEeprom(j), f, at.mem)
    ensures Flushing(ReadParse(t, Padded(f)), Quiet, u, img, mem, n)
  {
    var w := Answered(ReadEeprom(j), f, at);
    var now := t.(mirror := Patch(t.mirror, Start(j), Bytes(at.mem, j)));
    SectionReceived(t, j, f, at.mem);
    assert ReadParse(t, Padded(f)) == now;
    forall k: Section | n <= Place(k) < 5
      ensures Unwritten(k, now, Quiet, img, mem, n) && Older(k, Quiet, u, mem)
    {
      assert Unwritten(k, t, w, img, mem, n) && Older(k, w, u, mem);
      if j == k { ReadOwn(k, t, w, img, mem, n); } else { ReadOther(k, t, j, w, Bytes(at.mem, j), img, mem, n); }
    }
    forall k: Section | Place(k) < n
      ensures Written(k, now, Quiet, u, img, mem)
    {
      assert Written(k, t, w, u, img, mem);
    }
  }

  lemma FactoryBytesKept(m: Image, c: Counters)
    ensures Bytes(SetCounters(m, c), HWSetting) == Bytes(m, HWSetting)
  {
    var r := SetCounters(m, c);
    forall i | 0 <= i < Count(HWSetting)
      ensures Bytes(r, HWSetting)[i] == Bytes(m, HWSetting)[i]
    {
      assert forall j: Section :: Counted(j) ==> Start(HWSetting) + i != CounterAt(j);
    }
  }

  /** What an acknowledgement with the unit's counters does to a section still to be written. */
  lemma AckUnwritten(k: Section, t: Task, w: Wire, cnt: Counters, at: Image, img: Image, mem: Image, n: nat)
    requires Unwritten(k, t, w, img, mem, n) && n <= Place(k) < 5 && n >= 1
    requires w.Answered? && w.q.WriteEeprom? && w.q.k != k
    requires cnt == MirrorCounters(at) && Bytes(at, k) == Bytes(mem, k)
    ensures Unwritten(k, t.(jobs := t.jobs + Rereads(cnt, MirrorCounters(t.mirror)), mirror := SetCounters(t.mirror, cnt)), Quiet, img, mem, n)
  {
    if Counted(k) {
      CounterIsLast(at, k);
      CounterIsLast(mem, k);
      CounterIsLast(img, k);
      CounterIsLast(t.mirror, k);
      AckCounted(k, t.mirror, cnt);
    } else {
      FactoryBytesKept(t.mirror, cnt);
    }
  }

  /** Section k after the counters are taken over: a read bit if its counter differed, and otherwise
      the bytes it had. */
  lemma AckCounted(k: Section, m: Image, cnt: Counters)
    requires Counted(k)
    ensures Counter(SetCounters(m, cnt), k) == cnt.Get(k)
    ensures ReadJob(k) in Rereads(cnt, MirrorCounters(m)) <==> cnt.Get(k) != Counter(m, k)
    ensures cnt.Get(k) == Counter(m, k) ==> Bytes(SetCounters(m, cnt), k) == Bytes(m, k)
  {
    CounterIsLast(m, k);
    SetCountersBytes(m, cnt, k);
    assert MirrorCounters(m).Get(k) == Counter(m, k);
  }

  lemma AckFlushing(t: Task, w: Wire, u: Unit, img: Image, mem: Image, n: nat)
    requires Flushing(t, w, u, img, mem, n) && w.Answered? && w.q.WriteEeprom? && Replies(w.q, w.f, w.at.mem)
    ensures Flushing(WriteParse(t, Padded(w.f)), Quiet, u, img, mem, n)
  {
    var cnt := AckCounters(Padded(w.f));
    var now := t.(jobs := t.jobs + Rereads(cnt, MirrorCounters(t.mirror)), mirror := SetCounters(t.mirror, cnt));
    assert WriteParse(t, Padded(w.f)) == now;
    RereadsProper(t.jobs, cnt, MirrorCounters(t.mirror));
    forall k: Section | n <= Place(k) < 5
      ensures Unwritten(k, now, Quiet, img, mem, n) && Older(k, Quiet, u, mem)
    {
      assert Unwritten(k, t, w, img, mem, n) && Older(k, w, u, mem);
      AckUnwritten(k, t, w, cnt, w.at.mem, img, mem, n);
    }
    forall k: Section | Place(k) < n
      ensures Written(k, now, Quiet, u, img, mem)
    {
      assert Written(k, t, w, u, img, mem);
    }
  }

  lemma FlushIgnores(t: Task, now: Task, w: Wire, next: Wire, u: Unit, img: Image, mem: Image, n: nat)
    requires Flushing(t, w, u, img, mem, n)
    requires now.jobs == t.jobs && now.mirror == t.mirror && now.ext == t.ext && now.extInit == t.extInit
    requires next == w || (next == Quiet && w.Answered? && w.q == DataDebug) || (w == Quiet && next in {Asked(DataDebug), Asked(PollingBase)})
    ensures Flushing(now, next, u, img, mem, n)
  {
    forall k: Section | n <= Place(k) < 5
      ensures Unwritten(k, now, next, img, mem, n) && Older(k, next, u, mem)
    {
      assert Unwritten(k, t, w, img, mem, n) && Older(k, w, u, mem);
    }
    forall k: Section | Place(k) < n
      ensures Written(k, now, next, u, img, mem)
    {
      assert Written(k, t, w, u, img, mem);
    }
  }

  lemma DispatchFlushing(t: Task, w: Wire, u: Unit, img: Image, mem: Image, n: nat)
    requires w.Answered? && Flushing(t, w, u, img, mem, n) && Replies(w.q, w.f, w.at.mem)
    ensures Flushing(Dispatch(t, Padded(w.f)), Quiet, u, img, mem, n)
  {
    var buf := Padded(w.f);
    var now := Dispatch(t, buf);
    assert buf[TYPE_COMAND] == w.f[TYPE_COMAND];
    match w.q
    case PollingBase =>
      PollFlushing(t, w.f, w.at, u, img, mem, n);
      FlushIgnores(PollingParse(t, buf), now, Quiet, Quiet, u, img, mem, n);
    case DataDebug => FlushIgnores(t, now, w, Quiet, u, img, mem, n);
    case ReadEeprom(k) =>
      ReadFlushing(t, k, w.f, w.at, u, img, mem, n);
      FlushIgnores(ReadParse(t, buf), now, Quiet, Quiet, u, img, mem, n);
    case WriteEeprom(k, data) =>
      AckFlushing(t, w, u, img, mem, n);
      FlushIgnores(WriteParse(t, buf), now, Quiet, Quiet, u, img, mem, n);
  }

  // ---- Requests -------------------------------------------------------------

  /** The write that is due after n of them. */
  function DueWrite(n: nat, img: Image, mem: Image): Request
    requires n < 5
  {
    WriteEeprom(ORDER[n], Expected(ORDER[n], img, mem))
  }

  /** The jobs left once the one whose request has gone out is taken down. */
  function Live(t: Task, at: Point): Task {
    if at.Clearing? then t.(jobs := t.jobs - {at.j}) else t
  }

  lemma SendRead(t: Task, j: Section, u: Unit, img: Image, mem: Image, n: nat)
    requires Flushing(t, Quiet, u, img, mem, n) && ReadJob(j) in t.jobs
    ensures Flushing(Live(t, Clearing(ReadJob(j))), Asked(ReadEeprom(j)), u, img, mem, n)
  {
    var now := Live(t, Clearing(ReadJob(j)));
    assert ProperJob(ReadJob(j));
    forall k: Section | n <= Place(k) < 5
      ensures Unwritten(k, now, Asked(ReadEeprom(j)), img, mem, n) && Older(k, Asked(ReadEeprom(j)), u, mem)
    {
      assert Unwritten(k, t, Quiet, img, mem, n) && Older(k, Quiet, u, mem);
    }
    forall k: Section | Place(k) < n
      ensures Written(k, now, Asked(ReadEeprom(j)), u, img, mem)
    {
      assert Written(k, t, Quiet, u, img, mem);
    }
  }

  /** Writes are served in order, each once, and only when no read is pending. */
  lemma TurnIsDueWrite(t: Task, u: Unit, img: Image, mem: Image, n: nat, j: Section)
    requires Flushing(t, Quiet, u, img, mem, n) && Turn(t.jobs) == [WriteJob(j)]
    ensures n < 5 && j == ORDER[n] && Bytes(t.mirror, j) == Expected(j, img, mem)
  {
    assert ProperJob(WriteJob(j));
    assert Place(j) >= n;
    assert Unwritten(j, t, Quiet, img, mem, n);
    assert Unwritten(ORDER[n], t, Quiet, img, mem, n);
  }

  lemma SendDue(t: Task, u: Unit, img: Image, mem: Image, n: nat)
    requires Flushing(t, Quiet, u, img, mem, n) && n < 5 && Bytes(t.mirror, ORDER[n]) == Expected(ORDER[n], img, mem)
    ensures Wanted(WriteJob(ORDER[n]), t.mirror) == [DueWrite(n, img, mem)]
    ensures Flushing(Live(t, Clearing(WriteJob(ORDER[n]))), Asked(DueWrite(n, img, mem)), u, img, mem, n + 1)
  {
    var now := Live(t, Clearing(WriteJob(ORDER[n])));
    var next := Asked(DueWrite(n, img, mem));
    forall k: Section | n + 1 <= Place(k) < 5
      ensures Unwritten(k, now, next, img, mem, n + 1) && Older(k, next, u, mem)
    {
      assert Unwritten(k, t, Quiet, img, mem, n) && Older(k, Quiet, u, mem);
    }
    forall k: Section | Place(k) < n + 1
      ensures Written(k, now, next, u, img, mem)
    {
      if Place(k) < n {
        assert Written(k, t, Quiet, u, img, mem);
      } else {
        assert k == ORDER[n];
      }
    }
  }

  /** The section writes among some requests. */
  function WritesIn(sent: seq<Request>): seq<Request> {
    if sent == [] then [] else Kept(sent[0]) + WritesIn(sent[1..])
  }

  function Kept(q: Request): seq<Request> {
    if q.WriteEeprom? then [q] else []
  }

  /** Going from n to more writes sent exactly those that were due. */
  predicate Progresses(sent: seq<Request>, n: nat, more: nat, img: Image, mem: Image) {
    n <= more <= 5 && |WritesIn(sent)| == more - n && forall i :: 0 <= i < more - n ==> WritesIn(sent)[i] == DueWrite(n + i, img, mem)
  }

  /** The scheduler's choice. */
  lemma AskFlushing(n: Node, w: Wire, u: Unit, img: Image, mem: Image, k: nat)
    requires Flushing(n.task, w, u, img, mem, k) && n.at == Scheduling && (n.task.busy <==> w != Quiet)
    ensures var e := AskEffect(n);
            exists more: nat :: Progresses(e.sent, k, more, img, mem) && Flushing(Live(e.node.task, e.node.at), WireAfter(w, e.sent), u, img, mem, more)
  {
    var e := AskEffect(n);
    if !Ready(n.task) {
      assert Progresses([], k, k, img, mem);
    } else {
      var j := Turn(n.task.jobs)[0];
      assert ProperJob(j);
      if j.ReadJob? {
        SendRead(n.task, j.k, u, img, mem, k);
        assert WritesIn(e.sent) == [];
        assert Progresses(e.sent, k, k, img, mem);
      } else {
        TurnIsDueWrite(n.task, u, img, mem, k, j.k);
        SendDue(n.task, u, img, mem, k);
        assert WritesIn(e.sent) == [DueWrite(k, img, mem)];
        assert Progresses(e.sent, k, k + 1, img, mem);
      }
    }
  }

  // ---- The unit's answer ----------------------------------------------------

  lemma AnswerFlushing(t: Task, q: Request, f: seq<byte>, u: Unit, v: Unit, img: Image, mem: Image, n: nat)
    requires Flushing(t, Asked(q), u, img, mem, n)
    requires if q.WriteEeprom? then Stored(v.mem, q.k, q.data) && (forall j: Section :: !SameBytes(j, q.k) ==> Bytes(v.mem, j) == Bytes(u.mem, j))
             else v == u
    ensures Flushing(t, Answered(q, f, v), v, img, mem, n)
  {
    forall k: Section | n <= Place(k) < 5
      ensures Unwritten(k, t, Answered(q, f, v), img, mem, n) && Older(k, Answered(q, f, v), v, mem)
    {
      assert Unwritten(k, t, Asked(q), img, mem, n) && Older(k, Asked(q), u, mem);
      assert q.WriteEeprom? ==> !SameBytes(k, q.k);
    }
    forall k: Section | Place(k) < n
      ensures Written(k, t, Answered(q, f, v), v, img, mem)
    {
      assert Written(k, t, Asked(q), u, img, mem);
      assert q.WriteEeprom? && k != q.k ==> !SameBytes(k, q.k);
    }
  }

  // ---- Runs -----------------------------------------------------------------

  predicate FlushState(s: System, img: Image, mem: Image, n: nat) {
    Inv(s) && Connection(s) && Flushing(Live(s.node.task, s.node.at), s.wire, s.unit, img, mem, n)
  }

  /** The requests the firmware sends in a step. */
  function SentBy(s: System, a: Event): seq<Request> {
    if a.Loop? then TickEffect(s.node, a.c, a.io, map[]).sent else []
  }

  ghost predicate FlushGoesOn(next: System, sent: seq<Request>, img: Image, mem: Image, n: nat) {
    next.node.task.com == WbmError || exists more: nat :: Progresses(sent, n, more, img, mem) && FlushState(next, img, mem, more)
  }

  lemma AnswerGoesOn(s: System, f: seq<byte>, bump: bool, img: Image, mem: Image, n: nat)
    requires FlushState(s, img, mem, n) && Enabled(s, Answer(f, bump))
    ensures FlushState(Step(s, Answer(f, bump)), img, mem, n)
  {
    var q := s.wire.q;
    var v := Reaction(s.unit, q, bump);
    AnswerKeepsInv(s, f, bump);
    AnswerKeepsConnection(s, f, bump);
    if q.WriteEeprom? && bump {
      ChangeFacts(s.unit, q.k, q.data);
    }
    AnswerFlushing(Live(s.node.task, s.node.at), q, f, s.unit, v, img, mem, n);
  }

  lemma HeadGoesOn(s: System, c: Clock, io: Io, img: Image, mem: Image, n: nat)
    requires FlushState(s, img, mem, n) && s.node.at == Top && Enabled(s, Loop(c, io))
    ensures FlushGoesOn(Looped(s, c, io), TickEffect(s.node, c, io, map[]).sent, img, mem, n)
  {
    var t := s.node.task;
    var d := DebugTick(t, c);
    var p := PollTick(d.task, c);
    var sent := d.sent + p.sent;
    TimerFacts(t, c);
    HeadKeepsConnection(s, c, io);
    LoopKeepsInv(s, c, io);
    TimersAskOnly(t, c);
    assert Progresses(sent, n, n, img, mem);
    FlushIgnores(t, p.task, s.wire, WireAfter(s.wire, sent), s.unit, img, mem, n);
  }

  lemma TimersAskOnly(t: Task, c: Clock)
    ensures var sent := DebugTick(t, c).sent + PollTick(DebugTick(t, c).task, c).sent;
            (sent == [] || sent == [DataDebug] || sent == [PollingBase]) && WritesIn(sent) == []
  {
    TimerFacts(t, c);
  }

  lemma ReadGoesOn(s: System, c: Clock, io: Io, img: Image, mem: Image, n: nat)
    requires FlushState(s, img, mem, n) && s.node.at == Reading && Enabled(s, Loop(c, io))
    ensures FlushState(Looped(s, c, io), img, mem, n)
  {
    LoopKeepsInv(s, c, io);
    ReadKeepsConnection(s, c, io);
    DigestFlushing(s, c, img, mem, n);
  }

  lemma DigestFlushing(s: System, c: Clock, img: Image, mem: Image, n: nat)
    requires FlushState(s, img, mem, n) && s.node.at == Reading
    ensures var (r, m) := Hear(s.node.rx, map[]);
            Flushing(Digest(s.node.task, c, m), Drained(s.wire, m.code, true), s.unit, img, mem, n)
  {
    var t, w := s.node.task, s.wire;
    if w.Answered? {
      HearReply(s.node.rx, w);
      FlushIgnores(t, t.(globalMs := c.stamp), w, w, s.unit, img, mem, n);
      DispatchFlushing(t.(globalMs := c.stamp), w, s.unit, img, mem, n);
    } else {
      HearNothing(s.node.rx, w);
    }
  }

  lemma AskGoesOn(s: System, c: Clock, io: Io, img: Image, mem: Image, n: nat)
    requires FlushState(s, img, mem, n) && s.node.at == Scheduling && Enabled(s, Loop(c, io))
    ensures FlushGoesOn(Looped(s, c, io), TickEffect(s.node, c, io, map[]).sent, img, mem, n)
  {
    LoopKeepsInv(s, c, io);
    AskKeepsConnection(s, c, io);
    AskFlushing(s.node, s.wire, s.unit, img, mem, n);
  }

  lemma ClearGoesOn(s: System, c: Clock, io: Io, img: Image, mem: Image, n: nat)
    requires FlushState(s, img, mem, n) && s.node.at.Clearing? && Enabled(s, Loop(c, io))
    ensures FlushState(Looped(s, c, io), img, mem, n)
  {
    LoopKeepsInv(s, c, io);
    ClearKeepsConnection(s, c, io);
    FlushIgnores(Live(s.node.task, s.node.at), Cleared(s.node.task, s.node.at.j), s.wire, s.wire, s.unit, img, mem, n);
  }

  lemma LoopGoesOn(s: System, c: Clock, io: Io, img: Image, mem: Image, n: nat)
    requires FlushState(s, img, mem, n) && Enabled(s, Loop(c, io))
    ensures FlushGoesOn(Looped(s, c, io), TickEffect(s.node, c, io, map[]).sent, img, mem, n)
  {
    match s.node.at
    case Top => HeadGoesOn(s, c, io, img, mem, n);
    case Reading =>
      ReadGoesOn(s, c, io, img, mem, n);
      assert Progresses([], n, n, img, mem);
    case Scheduling => AskGoesOn(s, c, io, img, mem, n);
    case Clearing(j) =>
      ClearGoesOn(s, c, io, img, mem, n);
      assert Progresses([], n, n, img, mem);
  }

  lemma StepGoesOn(s: System, a: Event, img: Image, mem: Image, n: nat)
    requires FlushState(s, img, mem, n) && Enabled(s, a) && (a.Loop? || a.Answer?)
    ensures FlushGoesOn(Step(s, a), SentBy(s, a), img, mem, n)
  {
    match a
    case Loop(c, io) => LoopGoesOn(s, c, io, img, mem, n);
    case Answer(f, bump) =>
      AnswerGoesOn(s, f, bump, img, mem, n);
      assert Progresses([], n, n, img, mem);
  }

  /** All requests of a run. */
  function Sent(s: System, run: seq<Event>): seq<Request>
    requires Legal(s, run)
    decreases |run|
  {
    if run == [] then [] else SentBy(s, run[0]) + Sent(Step(s, run[0]), run[1..])
  }

  lemma WritesInMore(q: Request, sent: seq<Request>)
    ensures WritesIn([q] + sent) == Kept(q) + WritesIn(sent)
  {
    assert ([q] + sent)[1..] == sent;
  }

  lemma Regroup(a: seq<Request>, b: seq<Request>, c: seq<Request>)
    ensures a + (b + c) == (a + b) + c
  {
  }

  lemma {:induction false} WritesInBoth(a: seq<Request>, b: seq<Request>)
    ensures WritesIn(a + b) == WritesIn(a) + WritesIn(b)
  {
    if a == [] {
      assert a + b == b;
    } else {
      var q, rest := a[0], a[1..];
      Regroup([q], rest, b);
      Regroup(Kept(q), WritesIn(rest), WritesIn(b));
      WritesInMore(q, rest + b);
      WritesInMore(q, rest);
      WritesInBoth(rest, b);
      assert a == [q] + rest;
    }
  }

  lemma ProgressesOn(a: seq<Request>, b: seq<Request>, n: nat, m: nat, more: nat, img: Image, mem: Image)
    requires Progresses(a, n, m, img, mem) && Progresses(b, m, more, img, mem)
    ensures Progresses(a + b, n, more, img, mem)
  {
    WritesInBoth(a, b);
    forall i | 0 <= i < more - n
      ensures WritesIn(a + b)[i] == DueWrite(n + i, img, mem)
    {
      if i >= m - n {
        assert WritesIn(b)[i - (m - n)] == DueWrite(m + (i - (m - n)), img, mem);
      }
    }
  }

  lemma {:induction false} ErrorForever(s: System, run: seq<Event>)
    requires s.node.task.com == WbmError && Legal(s, run)
    ensures After(s, run).node.task.com == WbmError
    decreases |run|
  {
    if run != [] {
      if run[0].Loop? { ErrorStays(s, run[0].c, run[0].io); }
      ErrorForever(Step(s, run[0]), run[1..]);
    }
  }

  /** Only the firmware runs and the unit answers. */
  predicate Alone(run: seq<Event>) {
    forall i :: 0 <= i < |run| ==> run[i].Loop? || run[i].Answer?
  }

  lemma {:induction false} RunGoesOn(s: System, run: seq<Event>, img: Image, mem: Image, n: nat)
    requires FlushState(s, img, mem, n) && Legal(s, run) && Alone(run)
    ensures FlushGoesOn(After(s, run), Sent(s, run), img, mem, n)
    decreases |run|
  {
    if run == [] {
      assert Progresses([], n, n, img, mem);
    } else {
      var next := Step(s, run[0]);
      StepGoesOn(s, run[0], img, mem, n);
      if next.node.task.com == WbmError {
        ErrorForever(next, run[1..]);
      } else {
        var m: nat :| Progresses(SentBy(s, run[0]), n, m, img, mem) && FlushState(next, img, mem, m);
        RunGoesOn(next, run[1..], img, mem, m);
        if After(next, run[1..]).node.task.com != WbmError {
          var more: nat :| Progresses(Sent(next, run[1..]), m, more, img, mem) && FlushState(After(next, run[1..]), img, mem, more);
          ProgressesOn(SentBy(s, run[0]), Sent(next, run[1..]), n, m, more, img, mem);
        }
      }
    }
  }

  // ---- Main results ---------------------------------------------------------

  /** The application writes: the copy, then the bits. */
  function Delivered(s: System, payload: seq<byte>): System {
    s.(node := s.node.(task := AppDoes(AppDoes(s.node.task, Copy(payload)), Raise)))
  }

  lemma DeliveredInSteps(s: System, payload: seq<byte>)
    ensures Legal(s, [Event.App(Copy(payload)), Event.App(Raise)])
    ensures After(s, [Event.App(Copy(payload)), Event.App(Raise)]) == Delivered(s, payload)
  {
    var run := [Event.App(Copy(payload)), Event.App(Raise)];
    var n := Step(s, run[0]);
    var m := Step(n, run[1]);
    assert run[1..] == [Event.App(Raise)] && run[1..][1..] == [];
    assert Legal(m, []) && After(m, []) == m;
    assert Legal(n, run[1..]) && After(n, run[1..]) == m;
  }

  /** Nothing pending, no section under way, and the firmware knows the unit's counters. */
  predicate Settled(s: System) {
    && Inv(s) && Connection(s) && s.node.task.jobs == {} && s.node.task.landing == 0 && !s.node.at.Clearing?
    && s.node.task.ext == MirrorCounters(s.unit.mem)
    && (s.wire.Quiet? || ((s.wire.Asked? || s.wire.Answered?) && s.wire.q in {PollingBase, DataDebug}))
    && (s.wire.Answered? ==> s.wire.at == s.unit)
  }

  /** Outside a write's send window a payload leaves a connected system connected. */
  lemma DeliveredConnects(s: System, payload: seq<byte>)
    requires Inv(s) && Connection(s) && (s.node.at.Clearing? ==> !s.node.at.j.WriteJob?)
    ensures Inv(Delivered(s, payload)) && Connection(Delivered(s, payload))
  {
    var copied := s.(node := s.node.(task := AppDoes(s.node.task, Copy(payload))));
    AppKeepsInv(s, Copy(payload));
    AppKeepsConnection(s, Copy(payload));
    AppKeepsInv(copied, Raise);
    AppKeepsConnection(copied, Raise);
  }

  lemma FlushStarts(s: System, payload: seq<byte>)
    requires Settled(s) && |payload| >= MIN_PAYLOAD
    ensures FlushState(Delivered(s, payload), PayloadImage(payload), s.unit.mem, 0)
  {
    DeliveredConnects(s, payload);
    var now := Delivered(s, payload).node.task;
    forall k: Section | Place(k) < 5
      ensures Unwritten(k, now, s.wire, PayloadImage(payload), s.unit.mem, 0) && Older(k, s.wire, s.unit, s.unit.mem)
    {
      assert WriteJob(k) in FLUSH;
    }
  }

  /** Nothing pending and nothing outstanding. */
  predicate AtRest(s: System) {
    s.node.task.com == WbmConnected && s.node.task.jobs == {} && !Outstanding(s.node)
  }

  predicate FlushResult(end: System, writes: seq<Request>, img: Image, mem: Image) {
    && |writes| <= 5
    && (forall i :: 0 <= i < |writes| ==> writes[i] == DueWrite(i, img, mem))
    && (end.node.task.jobs == {} ==> |writes| == 5)
    && (AtRest(end) ==> forall k: Section :: k != Configuration ==> Stored(end.unit.mem, k, Expected(k, img, mem)))
  }

  /** The writes of a flush, exactly.  After a payload in a settled state, as long as the unit is left
      alone, no other payload comes and the link stays up, the section writes sent are the first of
      Info, SettingPar, SetTemp, DayProg and HWSetting, each at most once and in that order; each
      carries the payload's bytes, except that a section whose counter byte in the payload is not the
      unit's goes out with the bytes the unit had.  Once no request bit is left all five were sent,
      and once no reply is awaited either the unit holds what they carried. */
  lemma FlushWrites(s: System, payload: seq<byte>, run: seq<Event>)
    requires Settled(s) && |payload| >= MIN_PAYLOAD
    requires Legal(Delivered(s, payload), run) && Alone(run)
    ensures var start := Delivered(s, payload);
            var end := After(start, run);
            end.node.task.com == WbmConnected ==> FlushResult(end, WritesIn(Sent(start, run)), PayloadImage(payload), s.unit.mem)
  {
    var start := Delivered(s, payload);
    FlushStarts(s, payload);
    RunGoesOn(start, run, PayloadImage(payload), s.unit.mem, 0);
    if After(start, run).node.task.com == WbmConnected {
      FlushEnds(After(start, run), Sent(start, run), PayloadImage(payload), s.unit.mem);
    }
  }

  lemma AllSent(t: Task, w: Wire, u: Unit, img: Image, mem: Image, n: nat)
    requires Flushing(t, w, u, img, mem, n) && t.jobs == {}
    ensures n == 5
  {
    assert forall k: Section :: n <= Place(k) < 5 ==> WriteJob(k) in t.jobs;
    assert Place(Info) == 0 && Place(SettingPar) == 1 && Place(SetTemp) == 2 && Place(DayProg) == 3 && Place(HWSetting) == 4;
  }

  lemma FlushEnds(end: System, sent: seq<Request>, img: Image, mem: Image)
    requires FlushGoesOn(end, sent, img, mem, 0) && end.node.task.com == WbmConnected
    ensures FlushResult(end, WritesIn(sent), img, mem)
  {
    var n: nat :| Progresses(sent, 0, n, img, mem) && FlushState(end, img, mem, n);
    var t := Live(end.node.task, end.node.at);
    if end.node.task.jobs == {} {
      AllSent(t, end.wire, end.unit, img, mem, n);
      forall k: Section | k != Configuration
        ensures AtRest(end) ==> Stored(end.unit.mem, k, Expected(k, img, mem))
      {
        assert Place(k) < 5;
        assert Written(k, t, end.wire, end.unit, img, mem);
      }
    }
  }

  /** The five sections are the bytes [0, 129) and [135, 240). */
  lemma OrderCovers(i: nat)
    ensures (exists n :: 0 <= n < 5 && InSection(i, ORDER[n])) <==> i < 129 || 135 <= i < 240
  {
    assert InSection(i, ORDER[0]) <==> i < 59;
    assert InSection(i, ORDER[4]) <==> 59 <= i < 76;
    assert InSection(i, ORDER[1]) <==> 76 <= i < 129;
    assert InSection(i, ORDER[2]) <==> 135 <= i < 155;
    assert InSection(i, ORDER[3]) <==> 155 <= i < 240;
  }

  /** Byte by byte: after a finished flush the unit holds the payload's byte in every section whose
      counters agreed, and its own old byte in the others; counter bytes are the unit's business. */
  lemma FlushedByte(s: System, payload: seq<byte>, run: seq<Event>, k: Section, i: nat)
    requires Settled(s) && |payload| >= MIN_PAYLOAD
    requires Legal(Delivered(s, payload), run) && Alone(run)
    requires k != Configuration && InSection(i, k) && !(Counted(k) && i == CounterAt(k))
    ensures var end := After(Delivered(s, payload), run);
            AtRest(end) ==>
              end.unit.mem[i] == if Agrees(k, PayloadImage(payload), s.unit.mem) then payload[i] else s.unit.mem[i]
  {
    var end := After(Delivered(s, payload), run);
    FlushWrites(s, payload, run);
    if AtRest(end) {
      EndByte(end, payload, s.unit.mem, k, i);
    }
  }

  lemma EndByte(end: System, payload: seq<byte>, mem: Image, k: Section, i: nat)
    requires Stored(end.unit.mem, k, Expected(k, PayloadImage(payload), mem)) && |payload| >= MIN_PAYLOAD
    requires k != Configuration && InSection(i, k) && !(Counted(k) && i == CounterAt(k))
    ensures end.unit.mem[i] == if Agrees(k, PayloadImage(payload), mem) then payload[i] else mem[i]
  {
    var img := PayloadImage(payload);
    StoredByte(end.unit.mem, k, Expected(k, img, mem), i);
    assert Bytes(img, k)[i - Start(k)] == img[i] == payload[i];
    assert Bytes(mem, k)[i - Start(k)] == mem[i];
  }

  lemma StoredByte(m: Image, k: Section, data: seq<byte>, i: nat)
    requires Stored(m, k, data) && InSection(i, k) && !(Counted(k) && i == CounterAt(k))
    ensures m[i] == data[i - Start(k)]
  {
    assert Bytes(m, k)[i - Start(k)] == m[i];
    if Counted(k) {
      assert Bytes(m, k)[..Count(k) - 1][i - Start(k)] == data[..Count(k) - 1][i - Start(k)];
    }
  }
}
