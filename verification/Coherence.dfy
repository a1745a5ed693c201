/** The Connected loop keeps the mirror coherent: a counted section differs from
    the unit's only while something is under way to repair it. */
module Coherence {
  import opened Layout
  import opened Frame
  import opened Requests
  import opened Link
  import opened Nodes
  import opened Systems
  import Mailbox

  // ---- Invariant ------------------------------------------------------------

  /** The firmware's external counters are the low bytes of versions it has seen, and the unit is
      less than a full turn of the counter ahead. */
  predicate Tracks(ext: Counters, seen: Seen, u: Unit) {
    forall k: Section :: Counted(k) ==>
      k in seen && ext.Get(k) == seen[k] % 256 && seen[k] <= Ver(u, k) < seen[k] + 256
  }

  /** Section k of the mirror is the unit's, or on its way to be: its bit is up or about to be, a
      request for it is under way, or its counter has moved. */
  predicate Covered(k: Section, t: Task, w: Wire, u: Unit) {
    || Bytes(t.mirror, k) == Bytes(u.mem, k)
    || ReadJob(k) in t.jobs || WriteJob(k) in t.jobs || t.landing > 0
    || Carries(w, k)
    || t.ext.Get(k) != Counter(u.mem, k)
  }

  /** The write under way is the mirror's section still, up to the counter; or a payload has come over it,
      and its bits will too, or the unit's answer shows a counter the firmware has not seen. */
  predicate Kept(t: Task, w: Wire, u: Unit)
    requires (w.Asked? || w.Answered?) && w.q.WriteEeprom?
  {
    Stored(t.mirror, w.q.k, w.q.data) || t.landing > 0 || u.steady
  }

  /** A counted write under way is kept, unless a newer one is pending. */
  predicate Faithful(t: Task, w: Wire, u: Unit) {
    (w.Asked? || w.Answered?) && w.q.WriteEeprom? ==>
      && w.q.k != Configuration && |w.q.data| == Count(w.q.k)
      && (Counted(w.q.k) ==> WriteJob(w.q.k) in t.jobs || Kept(t, w, u))
  }

  /** What a damaged answer may have answered: no read, and a counted write only if it moved the
      counter.  A steady unit's answer to a counted write always has moved it. */
  predicate Spent(w: Wire, u: Unit, seen: Seen) {
    && (w.Garbled? ==>
          && !w.q.ReadEeprom?
          && (w.q.WriteEeprom? && Counted(w.q.k) ==> w.q.k in seen && Ver(u, w.q.k) > seen[w.q.k]))
    && (w.Answered? && w.q.WriteEeprom? && Counted(w.q.k) && u.steady ==> w.q.k in seen && Ver(w.at, w.q.k) > seen[w.q.k])
  }

  predicate LoopOk(t: Task, w: Wire, u: Unit, seen: Seen) {
    && Proper(t.jobs) && t.extInit
    && ((w.Asked? || w.Answered?) && w.q.ReadEeprom? ==> Counted(w.q.k))
    && Tracks(t.ext, seen, u) && Faithful(t, w, u) && Spent(w, u, seen)
    && (w.Answered? ==> forall k: Section :: Counted(k) ==> k in seen && seen[k] <= Ver(w.at, k))
    && (forall k: Section :: Counted(k) ==> Covered(k, t, w, u))
  }

  // ---- The environment keeps it ---------------------------------------------

  lemma LaterChange(at: Unit, u: Unit, k: Section, data: seq<byte>)
    requires Counting(u) && |data| == Count(k) && Later(at, u)
    ensures Later(at, Change(u, k, data))
  {
    ChangeFacts(u, k, data);
  }

  /** A counter that has moved, by less than a full turn, differs. */
  lemma MovedOn(ext: Counters, seen: Seen, u: Unit, k: Section)
    requires Tracks(ext, seen, u) && Counting(u) && Counted(k)
    ensures ext.Get(k) != Counter(u.mem, k) <==> Ver(u, k) > seen[k]
  {
  }

  lemma ChangeKeepsLoop(t: Task, w: Wire, u: Unit, seen: Seen, k: Section, data: seq<byte>)
    requires LoopOk(t, w, u, seen) && Counting(u) && |data| == Count(k)
    requires Counted(k) ==> Ver(u, k) + 1 < seen[k] + 256
    ensures LoopOk(t, w, Change(u, k, data), seen)
  {
    var v := Change(u, k, data);
    ChangeFacts(u, k, data);
    assert Tracks(t.ext, seen, v);
    forall j: Section | Counted(j)
      ensures Covered(j, t, w, v)
    {
      assert Covered(j, t, w, u);
      MovedOn(t.ext, seen, v, j);
      MovedOn(t.ext, seen, u, j);
    }
  }

  lemma AnswerKeepsLoop(t: Task, q: Request, f: seq<byte>, u: Unit, seen: Seen)
    requires LoopOk(t, Asked(q), u, seen)
    requires q.WriteEeprom? && Counted(q.k) && u.steady ==> q.k in seen && Ver(u, q.k) > seen[q.k]
    ensures LoopOk(t, Answered(q, f, u), u, seen)
  {
    forall j: Section | Counted(j)
      ensures Covered(j, t, Answered(q, f, u), u)
    {
      assert Covered(j, t, Asked(q), u);
    }
  }

  /** The answer arrives damaged. */
  lemma GarbleKeepsLoop(t: Task, q: Request, f: seq<byte>, u: Unit, seen: Seen)
    requires LoopOk(t, Asked(q), u, seen) && Counting(u) && !q.ReadEeprom?
    requires q.WriteEeprom? && Counted(q.k) ==> q.k in seen && Ver(u, q.k) > seen[q.k]
    ensures LoopOk(t, Garbled(q, f), u, seen)
  {
    forall j: Section | Counted(j)
      ensures Covered(j, t, Garbled(q, f), u)
    {
      assert Covered(j, t, Asked(q), u);
      MovedOn(t.ext, seen, u, j);
    }
  }

  /** A step of the application's tasks. */
  lemma AppKeepsLoop(t: Task, w: Wire, u: Unit, seen: Seen, a: AppStep)
    requires LoopOk(t, w, u, seen)
    ensures LoopOk(AppDoes(t, a), w, u, seen)
  {
    var now := AppDoes(t, a);
    AppFacts(t, a);
    forall j: Section | Counted(j)
      ensures Covered(j, now, w, u)
    {
      assert Covered(j, t, w, u);
      assert WriteJob(j) in FLUSH;
    }
  }

  // ---- Taking a reply keeps it ----------------------------------------------

  /** The firmware takes a polling reply. */
  lemma PollKeepsLoop(t: Task, f: seq<byte>, at: Unit, u: Unit, seen: Seen)
    requires LoopOk(t, Answered(PollingBase, f, at), u, seen) && WireOk(Answered(PollingBase, f, at), u) && Counting(u)
    ensures LoopOk(PollingParse(t, Padded(f)), Quiet, u, Snapshot(at))
  {
    var cnt := PollCounters(Padded(f));
    var now := t.(jobs := t.jobs + Rereads(cnt, t.ext), ext := cnt);
    assert PollingParse(t, Padded(f)) == now;
    PolledKeepsLoop(t, cnt, f, at, u, seen);
  }

  lemma PolledKeepsLoop(t: Task, cnt: Counters, f: seq<byte>, at: Unit, u: Unit, seen: Seen)
    requires LoopOk(t, Answered(PollingBase, f, at), u, seen) && Counting(at) && Later(at, u) && cnt == MirrorCounters(at.mem)
    ensures LoopOk(t.(jobs := t.jobs + Rereads(cnt, t.ext), ext := cnt), Quiet, u, Snapshot(at))
  {
    SnapshotTracks(cnt, at, u, seen);
    RereadsProper(t.jobs, cnt, t.ext);
    PolledCovers(t, cnt, Answered(PollingBase, f, at), u);
  }

  lemma PolledCovers(t: Task, cnt: Counters, w: Wire, u: Unit)
    requires w.Answered? && w.q == PollingBase
    requires forall j: Section :: Counted(j) ==> Covered(j, t, w, u)
    ensures forall j: Section :: Counted(j) ==> Covered(j, t.(jobs := t.jobs + Rereads(cnt, t.ext), ext := cnt), Quiet, u)
  {
    forall j: Section | Counted(j)
      ensures Covered(j, t.(jobs := t.jobs + Rereads(cnt, t.ext), ext := cnt), Quiet, u)
    {
      assert Covered(j, t, w, u);
      PollCovers(t, cnt, u, j);
    }
  }

  lemma PollCovers(t: Task, cnt: Counters, u: Unit, j: Section)
    requires Counted(j) && (Covered(j, t, Quiet, u))
    ensures Covered(j, t.(jobs := t.jobs + Rereads(cnt, t.ext), ext := cnt), Quiet, u)
  {
  }

  lemma SnapshotTracks(cnt: Counters, at: Unit, u: Unit, seen: Seen)
    requires Counting(at) && cnt == MirrorCounters(at.mem) && Later(at, u)
    requires forall k: Section :: Counted(k) ==> k in seen && seen[k] <= Ver(at, k) && Ver(u, k) < seen[k] + 256
    ensures Tracks(cnt, Snapshot(at), u)
  {
    forall k: Section | Counted(k)
      ensures k in Snapshot(at) && cnt.Get(k) == Snapshot(at)[k] % 256 && Snapshot(at)[k] <= Ver(u, k) < Snapshot(at)[k] + 256
    {
      assert cnt.Get(k) == Counter(at.mem, k) && Snapshot(at)[k] == Ver(at, k);
    }
  }

  /** The firmware takes the bytes of a section. */
  lemma ReadKeepsLoop(t: Task, k: Section, f: seq<byte>, at: Unit, u: Unit, seen: Seen)
    requires LoopOk(t, Answered(ReadEeprom(k), f, at), u, seen) && WireOk(Answered(ReadEeprom(k), f, at), u) && Counting(u)
    ensures LoopOk(ReadParse(t, Padded(f)), Quiet, u, seen)
  {
    var now := ReadParse(t, Padded(f));
    SectionReceived(t, k, f, at.mem);
    PatchSection(t.mirror, k, Bytes(at.mem, k));
    forall j: Section | Counted(j)
      ensures Covered(j, now, Quiet, u)
    {
      assert Covered(j, t, Answered(ReadEeprom(k), f, at), u);
      MovedOn(t.ext, seen, u, j);
    }
  }

  /** A truthful section reply puts the unit's bytes in their place. */
  lemma SectionReceived(t: Task, k: Section, f: seq<byte>, m: Image)
    requires Replies(ReadEeprom(k), f, m)
    ensures ReadParse(t, Padded(f)).mirror == Patch(t.mirror, Start(k), Bytes(m, k))
    ensures Clip(Padded(f), 6, Padded(f)[5]) == Bytes(m, k)
  {
    var buf, n := Padded(f), Count(k);
    assert buf[..|f|] == f;
    assert buf[4] == buf[..|f|][4] && buf[5] == buf[..|f|][5];
    assert buf[6..6 + n] == buf[..|f|][6..6 + n];
    assert Clip(buf, 6, buf[5]) == buf[6..6 + n];
  }

  /** Only counters change, and they change to c's. */
  lemma SetCountersBytes(m: Image, c: Counters, k: Section)
    requires Counted(k)
    ensures Bytes(SetCounters(m, c), k) == Bytes(m, k)[Count(k) - 1 := c.Get(k)]
  {
    var r := SetCounters(m, c);
    forall i | 0 <= i < Count(k) - 1
      ensures Bytes(r, k)[i] == Bytes(m, k)[i]
    {
      assert forall j: Section :: Counted(j) ==> Start(k) + i != CounterAt(j);
    }
    CounterIsLast(r, k);
    assert Bytes(r, k) == Bytes(m, k)[Count(k) - 1 := c.Get(k)];
  }

  /** The firmware takes a write acknowledgement. */
  lemma AckKeepsLoop(t: Task, k: Section, data: seq<byte>, f: seq<byte>, at: Unit, u: Unit, seen: Seen)
    requires var w := Answered(WriteEeprom(k, data), f, at);
             LoopOk(t, w, u, seen) && WireOk(w, u) && Counting(u)
    ensures LoopOk(WriteParse(t, Padded(f)), Quiet, u, seen)
  {
    var w := Answered(WriteEeprom(k, data), f, at);
    var now := WriteParse(t, Padded(f));
    RereadsProper(t.jobs, AckCounters(Padded(f)), MirrorCounters(t.mirror));
    forall j: Section | Counted(j)
      ensures Covered(j, now, Quiet, u)
    {
      AckCovers(t, k, data, f, at, u, seen, j);
    }
  }

  lemma AckCovers(t: Task, k: Section, data: seq<byte>, f: seq<byte>, at: Unit, u: Unit, seen: Seen, j: Section)
    requires var w := Answered(WriteEeprom(k, data), f, at);
             LoopOk(t, w, u, seen) && WireOk(w, u) && Counting(u)
    requires Counted(j)
    ensures Covered(j, WriteParse(t, Padded(f)), Quiet, u)
  {
    var cnt := AckCounters(Padded(f));
    MovedOn(t.ext, seen, u, j);
    assert Covered(j, t, Answered(WriteEeprom(k, data), f, at), u);
    if Ver(u, j) == seen[j] && WriteJob(j) !in t.jobs && ReadJob(j) !in t.jobs && t.landing == 0 {
      assert Bytes(at.mem, j) == Bytes(u.mem, j);
      assert j == k ==> Stored(t.mirror, j, data);
      assert j == k ==> Bytes(t.mirror, j)[..Count(j) - 1] == Bytes(at.mem, j)[..Count(j) - 1];
      CountersComplete(t.mirror, cnt, at.mem, j);
    }
  }

  /** Taking over a section's counter completes a section that is right but for it. */
  lemma CountersComplete(m: Image, c: Counters, unit: Image, k: Section)
    requires Counted(k) && Bytes(m, k)[..Count(k) - 1] == Bytes(unit, k)[..Count(k) - 1] && c.Get(k) == Counter(unit, k)
    ensures Bytes(SetCounters(m, c), k) == Bytes(unit, k)
  {
    SetCountersBytes(m, c, k);
    CounterIsLast(unit, k);
    var n := Count(k) - 1;
    assert Bytes(m, k)[n := c.Get(k)] == Bytes(m, k)[..n] + [c.Get(k)];
    assert Bytes(unit, k) == Bytes(unit, k)[..n] + [Counter(unit, k)];
  }

  // ---- Sending keeps it -----------------------------------------------------

  /** The scheduler's request goes out while its bit is still up. */
  lemma SendKeepsLoop(t: Task, u: Unit, seen: Seen, j: Job)
    requires LoopOk(t, Quiet, u, seen) && j in t.jobs
    ensures Wanted(j, t.mirror) != [] && LoopOk(t, Asked(Wanted(j, t.mirror)[0]), u, seen)
  {
    assert ProperJob(j);
    var q := Wanted(j, t.mirror)[0];
    forall k: Section | Counted(k)
      ensures Covered(k, t, Asked(q), u)
    {
      assert Covered(k, t, Quiet, u);
    }
  }

  /** Taking the bit down leaves its section to the request under way. */
  lemma ClearKeepsLoop(t: Task, w: Wire, u: Unit, seen: Seen, j: Job)
    requires LoopOk(t, w, u, seen) && Counting(u) && Windowed(t, w, u, j)
    ensures LoopOk(Cleared(t, j), w, u, seen)
  {
    var now := Cleared(t, j);
    forall k: Section | Counted(k)
      ensures Covered(k, now, w, u)
    {
      assert Covered(k, t, w, u);
      MovedOn(t.ext, seen, u, k);
    }
  }

  /** With job j's request out and its bit still up: the request is on the line, and a counted write is
      kept though its bit will go. */
  predicate Windowed(t: Task, w: Wire, u: Unit, j: Job) {
    && ProperJob(j) && Pending(w)
    && (j.ReadJob? ==> !w.Garbled? && w.q == ReadEeprom(j.k))
    && (j.WriteJob? ==> w.q.WriteEeprom? && w.q.k == j.k && (!w.Garbled? && Counted(j.k) ==> Kept(t, w, u)))
  }

  /** A debug or polling request changes nothing but the wire. */
  lemma AskKeepsLoop(t: Task, now: Task, u: Unit, seen: Seen, q: Request)
    requires LoopOk(t, Quiet, u, seen) && (q == DataDebug || q == PollingBase)
    requires now.jobs == t.jobs && now.mirror == t.mirror && now.landing == t.landing && now.ext == t.ext && now.extInit == t.extInit
    ensures LoopOk(now, Asked(q), u, seen)
  {
    forall k: Section | Counted(k)
      ensures Covered(k, now, Asked(q), u)
    {
      assert Covered(k, t, Quiet, u);
    }
  }

  // ---- Hearing --------------------------------------------------------------

  lemma HearNothing(rx: Rx, w: Wire)
    requires RxOk(rx, w) && !InMailbox(w)
    ensures var (r, m) := Hear(rx, map[]); m.code == 0 && RxOk(r, w) && m.boot == rx.boot
  {
    Mailbox.ReadIdle(rx, map[]);
  }

  /** The first look at a reply sees no more than that there is one; the second takes it. */
  lemma HearReply(rx: Rx, w: Wire)
    requires RxOk(rx, w) && w.Answered? && IsFrame(w.f)
    ensures var (r, m) := Hear(rx, map[]);
            && m.code in {RUN_DOWNLOAD, |w.f|}
            && (m.code == RUN_DOWNLOAD ==> RxOk(r, w) && m.boot == rx.boot)
            && (m.code == |w.f| ==> m.buf == Padded(w.f) && RxOk(r, Quiet))
  {
    if Mailbox.Waiting(rx, w.f) {
      Mailbox.ReadWaiting(rx, w.f);
    } else {
      Mailbox.ReadClaimed(rx, w.f);
      VerifyAcceptsFrames(w.f);
    }
  }

  /** The same for a damaged answer or a disturbance: the second look reports an error. */
  lemma HearGarbage(rx: Rx, w: Wire)
    requires RxOk(rx, w) && (w.Garbled? || w.Noise?) && Garbage(w.f)
    ensures var (r, m) := Hear(rx, map[]);
            && (m.code == RUN_DOWNLOAD || m.code < 0)
            && m.boot == rx.boot
            && (m.code == RUN_DOWNLOAD ==> RxOk(r, w))
            && (m.code < 0 ==> RxOk(r, Quiet) && RxOk(Settle(r, m.code), Quiet))
  {
    if Mailbox.Waiting(rx, w.f) {
      Mailbox.ReadWaiting(rx, w.f);
    } else {
      Mailbox.ReadClaimed(rx, w.f);
    }
  }

  lemma TakePoll(t: Task, w: Wire, u: Unit, seen: Seen)
    requires w.Answered? && w.q == PollingBase && LoopOk(t, w, u, seen) && WireOk(w, u) && Counting(u)
    ensures LoopOk(Dispatch(t, Padded(w.f)), Quiet, u, Snapshot(w.at))
  {
    var buf := Padded(w.f);
    DispatchIs(t, buf);
    assert buf[TYPE_COMAND] == w.f[TYPE_COMAND];
    PollKeepsLoop(t, w.f, w.at, u, seen);
    LoopIgnores(PollingParse(t, buf), Dispatch(t, buf), Quiet, u, Snapshot(w.at));
  }

  lemma TakeDebug(t: Task, w: Wire, u: Unit, seen: Seen)
    requires w.Answered? && w.q == DataDebug && LoopOk(t, w, u, seen) && WireOk(w, u) && Counting(u)
    ensures LoopOk(Dispatch(t, Padded(w.f)), Quiet, u, seen)
  {
    var buf := Padded(w.f);
    DispatchIs(t, buf);
    assert buf[TYPE_COMAND] == w.f[TYPE_COMAND];
    DebugKeepsLoop(t, w, u, seen);
    LoopIgnores(t, Dispatch(t, buf), Quiet, u, seen);
  }

  lemma TakeRead(t: Task, w: Wire, u: Unit, seen: Seen)
    requires w.Answered? && w.q.ReadEeprom? && LoopOk(t, w, u, seen) && WireOk(w, u) && Counting(u)
    ensures LoopOk(Dispatch(t, Padded(w.f)), Quiet, u, seen)
  {
    var buf := Padded(w.f);
    DispatchIs(t, buf);
    assert buf[TYPE_COMAND] == w.f[TYPE_COMAND];
    ReadKeepsLoop(t, w.q.k, w.f, w.at, u, seen);
    LoopIgnores(ReadParse(t, buf), Dispatch(t, buf), Quiet, u, seen);
  }

  lemma TakeAck(t: Task, w: Wire, u: Unit, seen: Seen)
    requires w.Answered? && w.q.WriteEeprom? && LoopOk(t, w, u, seen) && WireOk(w, u) && Counting(u)
    ensures LoopOk(Dispatch(t, Padded(w.f)), Quiet, u, seen)
  {
    var buf := Padded(w.f);
    DispatchIs(t, buf);
    assert buf[TYPE_COMAND] == w.f[TYPE_COMAND];
    AckKeepsLoop(t, w.q.k, w.q.data, w.f, w.at, u, seen);
    LoopIgnores(WriteParse(t, buf), Dispatch(t, buf), Quiet, u, seen);
  }

  lemma ReplyTypes(w: Wire, u: Unit)
    requires w.Answered? && WireOk(w, u)
    ensures Padded(w.f)[TYPE_COMAND] in {COMMAND_POLLING_BASE, COMMAND_DATA_DEBUG, COMMAND_READ_EEPROM, COMMAND_WRITE_EEPROM}
  {
    assert Padded(w.f)[TYPE_COMAND] == w.f[TYPE_COMAND];
  }

  /** Dispatch does the right thing with a truthful reply, whatever was asked. */
  lemma DispatchKeepsLoop(t: Task, w: Wire, u: Unit, seen: Seen)
    requires w.Answered? && LoopOk(t, w, u, seen) && WireOk(w, u) && Counting(u)
    ensures var now := Dispatch(t, Padded(w.f));
            && LoopOk(now, Quiet, u, if w.q == PollingBase then Snapshot(w.at) else seen)
            && SamePhase(t, now) && !now.busy
  {
    DispatchFacts(t, Padded(w.f));
    ReplyTypes(w, u);
    if w.q == PollingBase { TakePoll(t, w, u, seen); }
    else if w.q == DataDebug { TakeDebug(t, w, u, seen); }
    else if w.q.ReadEeprom? { TakeRead(t, w, u, seen); }
    else { TakeAck(t, w, u, seen); }
  }

  lemma DebugKeepsLoop(t: Task, w: Wire, u: Unit, seen: Seen)
    requires w.Answered? && w.q == DataDebug && LoopOk(t, w, u, seen)
    ensures LoopOk(t, Quiet, u, seen)
  {
    forall k: Section | Counted(k)
      ensures Covered(k, t, Quiet, u)
    {
      assert Covered(k, t, w, u);
    }
  }

  /** Only the request bits, the mirror and the counters matter to the invariant. */
  lemma LoopIgnores(t: Task, now: Task, w: Wire, u: Unit, seen: Seen)
    requires LoopOk(t, w, u, seen)
    requires now.jobs == t.jobs && now.mirror == t.mirror && now.landing == t.landing && now.ext == t.ext && now.extInit == t.extInit
    ensures LoopOk(now, w, u, seen)
  {
    forall k: Section | Counted(k)
      ensures Covered(k, now, w, u)
    {
      assert Covered(k, t, w, u);
    }
  }

  predicate Connection(s: System) {
    && s.node.task.com == WbmConnected && s.node.task.conn == Connected
    && RxOk(s.node.rx, s.wire) && WireOk(s.wire, s.unit) && !s.wire.Dead?
    && LoopOk(s.node.task, s.wire, s.unit, s.seen)
    && (Outstanding(s.node) <==> Pending(s.wire))
    && (s.node.at.Clearing? ==> !s.node.task.busy && Windowed(s.node.task, s.wire, s.unit, s.node.at.j))
  }

  /** An error leaves the line idle and every section covered: what was lost was no read. */
  lemma GarbageKeepsLoop(t: Task, w: Wire, u: Unit, seen: Seen, c: Clock, m: Msg)
    requires LoopOk(t, w, u, seen) && (w.Garbled? || w.Noise?) && m.Valid() && m.code < 0
    ensures LoopOk(Digest(t, c, m), Quiet, u, seen) && SamePhase(t, Digest(t, c, m)) && !Digest(t, c, m).busy
  {
    var now := Digest(t, c, m);
    assert now == t.(busy := false);
    forall k: Section | Counted(k)
      ensures Covered(k, now, Quiet, u)
    {
      assert Covered(k, t, w, u);
    }
  }

  /** What a Read_Message call of the Connected loop does to the state and the wire. */
  lemma DigestKeepsLoop(s: System, c: Clock)
    requires Connection(s) && Counting(s.unit) && s.node.at == Reading
    ensures var (r, m) := Hear(s.node.rx, map[]);
            var took := m.code > RUN_DOWNLOAD;
            var d := Digest(s.node.task, c, m);
            var w := Drained(s.wire, m.code, true);
            && (took ==> s.wire.Answered?)
            && LoopOk(d, w, s.unit, if took && s.wire.q == PollingBase then Snapshot(s.wire.at) else s.seen)
            && SamePhase(s.node.task, d) && (d.busy <==> Pending(w)) && RxOk(Settle(r, m.code), w) && WireOk(w, s.unit) && !w.Dead?
  {
    var t, w := s.node.task, s.wire;
    var (r, m) := Hear(s.node.rx, map[]);
    if w.Answered? {
      HearReply(s.node.rx, w);
      LoopIgnores(t, t.(globalMs := c.stamp), w, s.unit, s.seen);
      DispatchKeepsLoop(t.(globalMs := c.stamp), w, s.unit, s.seen);
    } else if InMailbox(w) {
      HearGarbage(s.node.rx, w);
      if m.code < 0 { GarbageKeepsLoop(t, w, s.unit, s.seen, c, m); }
    } else {
      HearNothing(s.node.rx, w);
    }
  }

  lemma ReadKeepsConnection(s: System, c: Clock, io: Io)
    requires Connection(s) && s.node.at == Reading && Counting(s.unit)
    ensures var n := Looped(s, c, io); Connection(n) && n.node.at == Scheduling
  {
    DigestKeepsLoop(s, c);
  }

  lemma AskKeepsConnection(s: System, c: Clock, io: Io)
    requires Connection(s) && s.node.at == Scheduling && Enabled(s, Loop(c, io))
    ensures var n := Looped(s, c, io); Connection(n) && (n.node.at == Top || n.node.at.Clearing?)
  {
    var t := s.node.task;
    if Ready(t) {
      var j := Turn(t.jobs)[0];
      assert ProperJob(j);
      assert s.wire == Quiet;
      SendKeepsLoop(t, s.unit, s.seen, j);
    }
  }

  lemma ClearKeepsConnection(s: System, c: Clock, io: Io)
    requires Connection(s) && s.node.at.Clearing? && Counting(s.unit)
    ensures var n := Looped(s, c, io); Connection(n) && n.node.at == Top
  {
    ClearKeepsLoop(s.node.task, s.wire, s.unit, s.seen, s.node.at.j);
  }

  lemma HeadKeepsConnection(s: System, c: Clock, io: Io)
    requires Connection(s) && s.node.at == Top && Enabled(s, Loop(c, io))
    ensures var n := Looped(s, c, io); n.node.at == Reading && (Connection(n) || n.node.task.com == WbmError)
  {
    var t := s.node.task;
    var d := DebugTick(t, c);
    var p := PollTick(d.task, c);
    var sent := d.sent + p.sent;
    TimerFacts(t, c);
    if sent != [] {
      assert s.wire == Quiet;
      AskKeepsLoop(t, p.task, s.unit, s.seen, sent[0]);
    } else {
      LoopIgnores(t, p.task, s.wire, s.unit, s.seen);
    }
  }

  /** The first part of an iteration, unless it gives the link up: the timers' ticks. */
  lemma HeadIs(s: System, c: Clock, io: Io)
    requires s.node.at == Top && s.node.task.com == WbmConnected
    ensures var d := DebugTick(s.node.task, c);
            var p := PollTick(d.task, c);
            var n := Looped(s, c, io);
            && TickEffect(s.node, c, io, map[]).sent == d.sent + p.sent
            && (n.node.task.com == WbmError || n == s.(node := Node(p.task, s.node.rx, Reading), wire := WireAfter(s.wire, d.sent + p.sent)))
  {
    TimerFacts(s.node.task, c);
  }

  /** Every loop part of a connected firmware stays connected or gives the link up. */
  lemma LoopKeepsConnection(s: System, c: Clock, io: Io)
    requires Connection(s) && Counting(s.unit) && Enabled(s, Loop(c, io))
    ensures var n := Looped(s, c, io); Connection(n) || (n.node.task.com == WbmError && n.node.at == Reading)
  {
    match s.node.at
    case Top => HeadKeepsConnection(s, c, io);
    case Reading => ReadKeepsConnection(s, c, io);
    case Scheduling => AskKeepsConnection(s, c, io);
    case Clearing(j) => ClearKeepsConnection(s, c, io);
  }

  // ---- A write overtaken by a payload ---------------------------------------

  /** Which overtaken writes lose coherence.  A payload came over section k while its write went out, and
      the bit it raised went down with the old one; now the unit's truthful answer is taken.  If the
      firmware knows the unit's counter and no bit is up for it, the section is covered afterwards
      exactly if the payload brought another counter byte than the unit's. */
  lemma OvertakenWrite(t: Task, k: Section, data: seq<byte>, f: seq<byte>, at: Unit, u: Unit)
    requires Counted(k) && Replies(WriteEeprom(k, data), f, at.mem) && Stored(at.mem, k, data) && Bytes(at.mem, k) == Bytes(u.mem, k)
    requires !Stored(t.mirror, k, data) && t.ext.Get(k) == Counter(u.mem, k)
    requires ReadJob(k) !in t.jobs && WriteJob(k) !in t.jobs && t.landing == 0
    ensures Covered(k, WriteParse(t, Padded(f)), Quiet, u) <==> Counter(t.mirror, k) != Counter(u.mem, k)
  {
    var cnt := AckCounters(Padded(f));
    var now := WriteParse(t, Padded(f));
    CounterIsLast(at.mem, k);
    CounterIsLast(u.mem, k);
    SetCountersBytes(t.mirror, cnt, k);
    assert cnt.Get(k) == Counter(at.mem, k);
    assert MirrorCounters(t.mirror).Get(k) == Counter(t.mirror, k);
    assert now.mirror == SetCounters(t.mirror, cnt);
    var n := Count(k) - 1;
    assert Bytes(now.mirror, k)[..n] == Bytes(t.mirror, k)[..n];
    assert Bytes(now.mirror, k)[..n] != Bytes(u.mem, k)[..n];
  }

  /** Which damaged acknowledgement loses coherence.  The unit took a counted write without moving the
      counter, and its answer is lost; with no bit up and the unit's counter known, the section is
      covered exactly if the mirror has that counter too.  All its other bytes are the unit's. */
  lemma DamagedAck(t: Task, k: Section, data: seq<byte>, u: Unit)
    requires Counted(k) && Stored(t.mirror, k, data) && Stored(u.mem, k, data) && t.ext.Get(k) == Counter(u.mem, k)
    requires ReadJob(k) !in t.jobs && WriteJob(k) !in t.jobs && t.landing == 0
    ensures Covered(k, t, Quiet, u) <==> Counter(t.mirror, k) == Counter(u.mem, k)
    ensures Bytes(t.mirror, k)[..Count(k) - 1] == Bytes(u.mem, k)[..Count(k) - 1]
  {
    var n := Count(k) - 1;
    CounterIsLast(t.mirror, k);
    CounterIsLast(u.mem, k);
    assert Bytes(t.mirror, k) == Bytes(t.mirror, k)[..n] + [Counter(t.mirror, k)];
    assert Bytes(u.mem, k) == Bytes(u.mem, k)[..n] + [Counter(u.mem, k)];
  }
}
