/** A payload in any connected state: while an earlier one is still going out,
    with bits up, with the unit changing meanwhile.  As long as no section still
    to be written is read first, its writes go out in order, each once, with its
    bytes. */
module FlushOrder {
  import opened Layout
  import opened Frame
  import opened Requests
  import opened Link
  import opened Nodes
  import opened Systems
  import opened Coherence
  import opened Handshake
  import opened Runs
  import opened Flush

  /** After n of the five writes: the others' bits are up, and the mirror holds the payload there, up to
      the counters, which acknowledgements refresh. */
  predicate Going(t: Task, img: Image, n: nat) {
    && n <= 5 && Proper(t.jobs) && t.landing == 0
    && (forall k: Section :: k != Configuration ==> (WriteJob(k) in t.jobs <==> Place(k) >= n))
    && (forall k: Section :: n <= Place(k) < 5 ==> Stored(t.mirror, k, Bytes(img, k)))
  }

  /** No section still to be written is about to be read or being read. */
  predicate Unread(s: System) {
    var t := Live(s.node.task, s.node.at);
    forall k: Section :: WriteJob(k) in t.jobs ==>
      ReadJob(k) !in t.jobs && !((s.wire.Asked? || s.wire.Answered?) && s.wire.q == ReadEeprom(k))
  }

  predicate AlwaysUnread(s: System, run: seq<Event>)
    requires Legal(s, run)
    decreases |run|
  {
    Unread(s) && (run == [] || AlwaysUnread(Step(s, run[0]), run[1..]))
  }

  /** These writes are the ones due from the n-th on, with the payload's bytes up to the counters. */
  predicate InOrder(writes: seq<Request>, n: nat, more: nat, img: Image) {
    && n <= more <= 5 && |writes| == more - n
    && forall i :: 0 <= i < |writes| ==> DueAt(writes[i], n + i, img)
  }

  predicate DueAt(q: Request, i: nat, img: Image) {
    i < 5 && q.WriteEeprom? && q.k == ORDER[i] && |q.data| == Count(q.k) && Stored(img, q.k, q.data)
  }

  // ---- Messages -------------------------------------------------------------

  lemma CountersLeaveStored(m: Image, c: Counters, k: Section, data: seq<byte>)
    requires Stored(m, k, data) && k != Configuration
    ensures Stored(SetCounters(m, c), k, data)
  {
    if Counted(k) {
      SetCountersBytes(m, c, k);
    } else {
      FactoryBytesKept(m, c);
    }
  }

  lemma PollGoing(t: Task, buf: seq<byte>, img: Image, n: nat)
    requires |buf| == BUFFER && Going(t, img, n)
    ensures Going(PollingParse(t, buf), img, n)
  {
    var s := if t.extInit then t else Seed(t);
    RereadsProper(t.jobs, PollCounters(buf), s.ext);
    assert PollingParse(t, buf).mirror == t.mirror;
    assert PollingParse(t, buf).jobs == t.jobs + Rereads(PollCounters(buf), s.ext);
  }

  lemma AckGoing(t: Task, buf: seq<byte>, img: Image, n: nat)
    requires |buf| == BUFFER && Going(t, img, n)
    ensures Going(WriteParse(t, buf), img, n)
  {
    RereadsProper(t.jobs, AckCounters(buf), MirrorCounters(t.mirror));
    forall k: Section | n <= Place(k) < 5
      ensures Stored(WriteParse(t, buf).mirror, k, Bytes(img, k))
    {
      CountersLeaveStored(t.mirror, AckCounters(buf), k, Bytes(img, k));
    }
  }

  lemma ReadGoing(t: Task, j: Section, f: seq<byte>, m: Image, img: Image, n: nat)
    requires Going(t, img, n) && Replies(ReadEeprom(j), f, m) && Counted(j) && WriteJob(j) !in t.jobs
    ensures Going(ReadParse(t, Padded(f)), img, n)
  {
    SectionReceived(t, j, f, m);
    PatchSection(t.mirror, j, Bytes(m, j));
    assert forall k: Section :: n <= Place(k) < 5 ==> !SameBytes(k, j);
  }

  lemma GoingIgnores(t: Task, now: Task, img: Image, n: nat)
    requires Going(t, img, n) && now.jobs == t.jobs && now.mirror == t.mirror && now.landing == t.landing
    ensures Going(now, img, n)
  {
  }

  lemma DispatchGoing(t: Task, w: Wire, img: Image, n: nat)
    requires w.Answered? && Going(t, img, n) && Replies(w.q, w.f, w.at.mem)
    requires w.q.ReadEeprom? ==> Counted(w.q.k) && WriteJob(w.q.k) !in t.jobs
    ensures Going(Dispatch(t, Padded(w.f)), img, n)
  {
    var buf := Padded(w.f);
    DispatchIs(t, buf);
    assert buf[TYPE_COMAND] == w.f[TYPE_COMAND];
    match w.q
    case PollingBase =>
      PollGoing(t, buf, img, n);
      GoingIgnores(PollingParse(t, buf), Dispatch(t, buf), img, n);
    case DataDebug => GoingIgnores(t, Dispatch(t, buf), img, n);
    case ReadEeprom(k) =>
      ReadGoing(t, k, w.f, w.at.mem, img, n);
      GoingIgnores(ReadParse(t, buf), Dispatch(t, buf), img, n);
    case WriteEeprom(_, _) =>
      AckGoing(t, buf, img, n);
      GoingIgnores(WriteParse(t, buf), Dispatch(t, buf), img, n);
  }

  lemma DigestGoing(s: System, c: Clock, img: Image, n: nat)
    requires Connection(s) && s.node.at == Reading && Going(s.node.task, img, n) && Unread(s)
    ensures var (r, m) := Hear(s.node.rx, map[]); Going(Digest(s.node.task, c, m), img, n)
  {
    var t, w := s.node.task, s.wire;
    var (r, m) := Hear(s.node.rx, map[]);
    if w.Answered? {
      HearReply(s.node.rx, w);
      DispatchGoing(t.(globalMs := c.stamp), w, img, n);
    } else if InMailbox(w) {
      HearGarbage(s.node.rx, w);
    } else {
      HearNothing(s.node.rx, w);
    }
  }

  // ---- The scheduler --------------------------------------------------------

  lemma TurnGoing(t: Task, img: Image, n: nat, j: Section)
    requires Going(t, img, n) && Turn(t.jobs) == [WriteJob(j)]
    ensures n < 5 && j == ORDER[n] && DueAt(WriteEeprom(j, Bytes(t.mirror, j)), n, img)
    ensures Going(t.(jobs := t.jobs - {WriteJob(j)}), img, n + 1)
  {
    assert ProperJob(WriteJob(j));
    assert Place(j) >= n;
    assert WriteJob(ORDER[n]) in t.jobs;
    assert j == ORDER[n];
  }

  lemma AskGoing(n: Node, img: Image, k: nat)
    requires n.at == Scheduling && Going(n.task, img, k)
    ensures var e := AskEffect(n);
            exists more: nat :: InOrder(WritesIn(e.sent), k, more, img) && Going(Live(e.node.task, e.node.at), img, more)
  {
    var e := AskEffect(n);
    if Ready(n.task) {
      var j := Turn(n.task.jobs)[0];
      assert ProperJob(j);
      if j.WriteJob? {
        TurnGoing(n.task, img, k, j.k);
        assert WritesIn(e.sent) == [WriteEeprom(j.k, Bytes(n.task.mirror, j.k))];
        assert InOrder(WritesIn(e.sent), k, k + 1, img);
      } else {
        assert WritesIn(e.sent) == [];
        assert InOrder([], k, k, img);
        GoingWithoutRead(n.task, j, img, k);
      }
    } else {
      assert WritesIn(e.sent) == [];
      assert InOrder(WritesIn(e.sent), k, k, img);
    }
  }

  lemma GoingWithoutRead(t: Task, j: Job, img: Image, n: nat)
    requires Going(t, img, n) && j.ReadJob?
    ensures Going(t.(jobs := t.jobs - {j}), img, n)
  {
  }

  // ---- Runs -----------------------------------------------------------------

  predicate GoingState(s: System, img: Image, n: nat) {
    Inv(s) && Connection(s) && Going(Live(s.node.task, s.node.at), img, n)
  }

  ghost predicate OrderGoesOn(next: System, writes: seq<Request>, img: Image, n: nat) {
    next.node.task.com == WbmError || exists more: nat :: InOrder(writes, n, more, img) && GoingState(next, img, more)
  }

  lemma LoopOrder(s: System, c: Clock, io: Io, img: Image, n: nat)
    requires GoingState(s, img, n) && Unread(s) && Enabled(s, Loop(c, io))
    ensures OrderGoesOn(Looped(s, c, io), WritesIn(TickEffect(s.node, c, io, map[]).sent), img, n)
  {
    LoopKeepsInv(s, c, io);
    LoopKeepsConnection(s, c, io);
    match s.node.at
    case Top => HeadOrder(s, c, io, img, n);
    case Reading =>
      DigestGoing(s, c, img, n);
      assert InOrder([], n, n, img);
    case Scheduling => AskGoing(s.node, img, n);
    case Clearing(j) =>
      GoingIgnores(Live(s.node.task, s.node.at), Cleared(s.node.task, j), img, n);
      assert InOrder([], n, n, img);
  }

  lemma TimersLeave(t: Task, c: Clock)
    ensures var p := PollTick(DebugTick(t, c).task, c).task; p.jobs == t.jobs && p.mirror == t.mirror && p.landing == t.landing
  {
  }

  lemma HeadOrder(s: System, c: Clock, io: Io, img: Image, n: nat)
    requires GoingState(s, img, n) && s.node.at == Top && Enabled(s, Loop(c, io))
    requires Inv(Looped(s, c, io)) && (Connection(Looped(s, c, io)) || Looped(s, c, io).node.task.com == WbmError)
    ensures OrderGoesOn(Looped(s, c, io), WritesIn(TickEffect(s.node, c, io, map[]).sent), img, n)
  {
    var t := s.node.task;
    HeadIs(s, c, io);
    TimersAskOnly(t, c);
    TimersLeave(t, c);
    GoingIgnores(t, PollTick(DebugTick(t, c).task, c).task, img, n);
    assert InOrder([], n, n, img);
  }

  /** The others leave the firmware's state alone. */
  lemma EnvironmentOrder(s: System, a: Event, img: Image, n: nat)
    requires GoingState(s, img, n) && Enabled(s, a) && Safe(s, a) && !a.Loop? && !a.App?
    ensures GoingState(Step(s, a), img, n)
  {
    StepKeepsInv(s, a);
    match a
    case Answer(f, bump) => AnswerKeepsConnection(s, f, bump);
    case Garble(f, bump) => GarbleKeepsConnection(s, f, bump);
    case Static(f) => StaticKeepsConnection(s, f);
    case UnitChange(k, data) => ChangeKeepsConnection(s, k, data);
  }

  lemma StepOrder(s: System, a: Event, img: Image, n: nat)
    requires GoingState(s, img, n) && Unread(s) && Enabled(s, a) && Safe(s, a) && !a.App?
    ensures OrderGoesOn(Step(s, a), WritesIn(SentBy(s, a)), img, n)
  {
    if a.Loop? {
      LoopOrder(s, a.c, a.io, img, n);
    } else {
      EnvironmentOrder(s, a, img, n);
      assert InOrder([], n, n, img);
    }
  }

  lemma InOrderOn(a: seq<Request>, b: seq<Request>, n: nat, m: nat, more: nat, img: Image)
    requires InOrder(a, n, m, img) && InOrder(b, m, more, img)
    ensures InOrder(a + b, n, more, img)
  {
    forall i | 0 <= i < |a + b|
      ensures DueAt((a + b)[i], n + i, img)
    {
      if i >= |a| {
        assert (a + b)[i] == b[i - |a|];
        assert m + (i - |a|) == n + i;
      }
    }
  }

  /** The application writes nothing more. */
  predicate NoMoreWrites(run: seq<Event>) {
    forall i :: 0 <= i < |run| ==> !run[i].App?
  }

  lemma {:induction false} RunOrder(s: System, run: seq<Event>, img: Image, n: nat)
    requires GoingState(s, img, n) && Legal(s, run) && Guarded(s, run) && NoMoreWrites(run) && AlwaysUnread(s, run)
    ensures OrderGoesOn(After(s, run), WritesIn(Sent(s, run)), img, n)
    decreases |run|
  {
    if run == [] {
      assert InOrder([], n, n, img);
    } else {
      var next := Step(s, run[0]);
      StepOrder(s, run[0], img, n);
      if next.node.task.com == WbmError {
        ErrorForever(next, run[1..]);
      } else {
        var m: nat :| InOrder(WritesIn(SentBy(s, run[0])), n, m, img) && GoingState(next, img, m);
        RunOrder(next, run[1..], img, m);
        if After(next, run[1..]).node.task.com != WbmError {
          var more: nat :| InOrder(WritesIn(Sent(next, run[1..])), m, more, img) && GoingState(After(next, run[1..]), img, more);
          WritesInBoth(SentBy(s, run[0]), Sent(next, run[1..]));
          InOrderOn(WritesIn(SentBy(s, run[0])), WritesIn(Sent(next, run[1..])), n, m, more, img);
        }
      }
    }
  }

  /** A payload accepted in any connected state outside a write's send window.  Over any run in which no
      other payload comes, no payload undercut and no read's answer was damaged, and no section still
      to be written is read or about to be: while the link stays up, the section writes sent are the
      first of Info, SettingPar, SetTemp, DayProg and HWSetting, each at most once and in that order,
      carrying the payload's bytes up to the counter, and all five once no write bit is left. */
  lemma FlushInOrder(s: System, payload: seq<byte>, run: seq<Event>)
    requires Inv(s) && Connection(s) && s.node.task.landing == 0 && (s.node.at.Clearing? ==> !s.node.at.j.WriteJob?)
    requires |payload| >= MIN_PAYLOAD
    requires Legal(Delivered(s, payload), run) && Guarded(Delivered(s, payload), run)
    requires NoMoreWrites(run) && AlwaysUnread(Delivered(s, payload), run)
    ensures var end := After(Delivered(s, payload), run);
            var writes := WritesIn(Sent(Delivered(s, payload), run));
            end.node.task.com == WbmConnected ==>
              && |writes| <= 5
              && (forall i :: 0 <= i < |writes| ==> DueAt(writes[i], i, PayloadImage(payload)))
              && ((forall k: Section :: WriteJob(k) !in end.node.task.jobs) ==> |writes| == 5)
  {
    var start, img := Delivered(s, payload), PayloadImage(payload);
    StartGoing(s, payload);
    RunOrder(start, run, img, 0);
    var end := After(start, run);
    if end.node.task.com == WbmConnected {
      EndGoing(end, WritesIn(Sent(start, run)), img);
    }
  }

  lemma StartGoing(s: System, payload: seq<byte>)
    requires Inv(s) && Connection(s) && s.node.task.landing == 0 && (s.node.at.Clearing? ==> !s.node.at.j.WriteJob?)
    requires |payload| >= MIN_PAYLOAD
    ensures GoingState(Delivered(s, payload), PayloadImage(payload), 0)
  {
    DeliveredConnects(s, payload);
    DeliveredGoing(s.node.task, s.node.at, payload);
  }

  lemma DeliveredGoing(t: Task, at: Point, payload: seq<byte>)
    requires Proper(t.jobs) && t.landing == 0 && |payload| >= MIN_PAYLOAD && (at.Clearing? ==> !at.j.WriteJob?)
    ensures Going(Live(AppDoes(AppDoes(t, Copy(payload)), Raise), at), PayloadImage(payload), 0)
  {
    var now := AppDoes(AppDoes(t, Copy(payload)), Raise);
    assert now == t.(mirror := PayloadImage(payload), jobs := t.jobs + FLUSH);
    forall k: Section | k != Configuration
      ensures WriteJob(k) in Live(now, at).jobs
    {
      assert WriteJob(k) in FLUSH;
    }
  }

  lemma EndGoing(end: System, writes: seq<Request>, img: Image)
    requires OrderGoesOn(end, writes, img, 0) && end.node.task.com == WbmConnected
    ensures |writes| <= 5
    ensures forall i :: 0 <= i < |writes| ==> DueAt(writes[i], i, img)
    ensures (forall k: Section :: WriteJob(k) !in end.node.task.jobs) ==> |writes| == 5
  {
    var n: nat :| InOrder(writes, 0, n, img) && GoingState(end, img, n);
    var t := Live(end.node.task, end.node.at);
    if n < 5 {
      assert WriteJob(ORDER[n]) in t.jobs;
    }
  }
}
