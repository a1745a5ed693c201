/** The three timers of the Connected loop over a 32-bit millisecond clock that
    wraps.  The link-loss test is taken exactly when the clock wraps in a window
    of one iteration; otherwise never, whether the unit answers or not. */
module Timers {
  import opened Layout
  import Frame
  import opened Requests
  import opened Link
  import opened Nodes

  const TURN: nat := 0x1_0000_0000

  /** The times one iteration reads the clock at, before wrapping. */
  datatype Reads = Reads(debugTest: nat, debugSet: nat, pollTest: nat, pollSet: nat, lossTest: nat, stamp: nat) {
    predicate InOrder(from: nat) {
      from <= debugTest <= debugSet <= pollTest <= pollSet <= lossTest <= stamp
    }
  }

  function Wrap(ms: nat): u32 { ms % TURN }

  function Millis(r: Reads): Clock {
    Clock(Wrap(r.debugTest), Wrap(r.debugSet), Wrap(r.pollTest), Wrap(r.pollSet), Wrap(r.lossTest), Wrap(r.stamp))
  }

  /** Both times lie on the same turn of the clock. */
  predicate SameTurn(a: nat, b: nat) { a / TURN == b / TURN }

  /** Within one turn's length the unsigned difference is the true one, and the clock reads less than
      the stamp exactly if it has wrapped. */
  lemma UnsignedDifference(a: nat, b: nat)
    requires a <= b < a + TURN
    ensures (Wrap(b) - Wrap(a)) % TURN == b - a
    ensures Wrap(b) < Wrap(a) <==> !SameTurn(a, b)
  {
    assert a == TURN * (a / TURN) + a % TURN;
    assert b == TURN * (b / TURN) + b % TURN;
    if SameTurn(a, b) {
      assert Wrap(b) - Wrap(a) == b - a;
    } else {
      assert b / TURN == a / TURN + 1;
      assert Wrap(b) - Wrap(a) == (b - a) - TURN;
    }
  }

  /** A test within a turn of its stamp is the test on true times, or a wrap. */
  lemma DueExactly(a: nat, b: nat, period: nat)
    requires a <= b < a + TURN
    ensures Due(Wrap(b), Wrap(a), period) <==> b - a >= period || !SameTurn(a, b)
  {
    UnsignedDifference(a, b);
  }

  // ---- One iteration --------------------------------------------------------

  /** True times: when the poll, link and debug timers were last set, and the last reads for the poll
      and the debug test. */
  datatype Stamps = Stamps(poll: nat, global: nat, tested: nat, debug: nat, looked: nat)

  /** The timers show those times.  `slack` is how much older the link timer may be than the
      poll timer; it is 0 after the first poll tick, and before that the time between the last two
      steps of the handshake. */
  predicate Timed(t: Task, s: Stamps, slack: nat) {
    && t.com == WbmConnected && t.mode != Initializing
    && t.pollMs == Wrap(s.poll) && t.globalMs == Wrap(s.global)
    && s.poll <= s.tested < s.poll + POLLING_OFF_MS && s.poll <= s.global + slack
    && (t.mode == Running ==> t.debugMs == Wrap(s.debug) && s.debug <= s.looked < s.debug + DEBUG_MS && s.looked <= s.tested)
  }

  predicate DebugDue(t: Task, r: Reads) {
    t.mode == Running && Due(Wrap(r.debugTest), t.debugMs, DEBUG_MS)
  }

  function AfterDebug(t: Task, s: Stamps, r: Reads): Stamps {
    if DebugDue(t, r) then Stamps(r.debugSet, r.debugSet, r.debugSet, r.debugSet, r.debugSet) else s.(looked := r.debugTest)
  }

  predicate PollDue(t: Task, s: Stamps, r: Reads) {
    Due(Wrap(r.pollTest), Wrap(AfterDebug(t, s, r).poll), PollPeriod(t.mode))
  }

  /** The true times when the link-loss test is made. */
  function AfterPoll(t: Task, s: Stamps, r: Reads): Stamps {
    var d := AfterDebug(t, s, r);
    if PollDue(t, s, r) then d.(poll := r.pollSet, global := r.pollSet, tested := r.pollSet) else d.(tested := r.pollTest)
  }

  /** The environment's part: reads in order, no two tests of a timer a full clock turn apart, and no
      stall of ten seconds between poll test and link-loss test. */
  predicate Timely(s: Stamps, r: Reads, slack: nat) {
    && r.InOrder(s.tested) && s.global <= r.debugTest
    && r.pollTest < s.tested + TURN - POLLING_OFF_MS
    && r.debugTest < s.looked + TURN - DEBUG_MS
    && r.lossTest - r.pollTest + slack <= TIMEOUT_MS - POLLING_OFF_MS
  }

  /** The timers after the debug tick. */
  lemma DebugTickTimes(t: Task, s: Stamps, r: Reads, slack: nat)
    requires Timed(t, s, slack) && Timely(s, r, slack)
    ensures var d := DebugTick(t, Millis(r)).task;
            var now := AfterDebug(t, s, r);
            && d.com == t.com && d.mode == t.mode
            && d.pollMs == Wrap(now.poll) && d.globalMs == Wrap(now.global)
            && now.poll <= r.pollTest < now.poll + TURN && now.poll <= now.global + slack && now.global <= r.pollTest
            && (t.mode == Running ==> d.debugMs == Wrap(now.debug) && now.debug <= now.looked < now.debug + DEBUG_MS && now.looked <= r.pollTest)
  {
    if t.mode == Running {
      DueExactly(s.debug, r.debugTest, DEBUG_MS);
    }
  }

  /** The timers before the link-loss test. */
  lemma PollTickTimes(t: Task, s: Stamps, r: Reads, slack: nat)
    requires Timed(t, s, slack) && Timely(s, r, slack)
    ensures var p := PollTick(DebugTick(t, Millis(r)).task, Millis(r)).task;
            var now := AfterPoll(t, s, r);
            && Timed(p, now, slack)
            && now.global <= r.lossTest < now.global + TIMEOUT_MS
            && (slack == 0 ==> SameTurn(now.global, now.tested))
            && (slack == 0 ==> r.lossTest - now.global < POLLING_OFF_MS + (r.lossTest - r.pollTest))
  {
    var d := AfterDebug(t, s, r);
    DebugTickTimes(t, s, r, slack);
    DueExactly(d.poll, r.pollTest, PollPeriod(t.mode));
    SameTurnBetween(d.poll, d.global, r.pollTest);
    PollTickShows(DebugTick(t, Millis(r)).task, t, s, r);
  }

  lemma PollTickShows(d: Task, t: Task, s: Stamps, r: Reads)
    requires t.mode != Initializing && d.mode == t.mode && d.pollMs == Wrap(AfterDebug(t, s, r).poll)
    ensures PollTick(d, Millis(r)).task ==
            if PollDue(t, s, r) then d.(busy := true, pollMs := Wrap(r.pollSet), globalMs := Wrap(r.pollSet)) else d
  {
  }

  lemma SameTurnBetween(a: nat, b: nat, c: nat)
    ensures a <= b <= c && SameTurn(a, c) ==> SameTurn(b, c)
  {
    if a <= b <= c {
      assert a / TURN <= b / TURN <= c / TURN;
    }
  }

  /** Link loss, exactly: the test is taken if and only if the clock wraps between the link timer's
      last setting and the test, and that lies less than 15 s back.  From the first poll tick on it
      lies less than 5 s and the loop's own delay back, and only a wrap between the poll test and the
      loss test counts. */
  lemma LossExactly(t: Task, s: Stamps, r: Reads, slack: nat)
    requires Timed(t, s, slack) && Timely(s, r, slack)
    ensures var now := AfterPoll(t, s, r);
            var after := Head(t, Millis(r)).task;
            && now.global <= r.lossTest < now.global + TIMEOUT_MS
            && (after.com == WbmError <==> !SameTurn(now.global, r.lossTest))
            && (after.com != WbmError ==> Timed(after, now, slack))
            && (slack == 0 ==> (after.com == WbmError <==> !SameTurn(now.tested, r.lossTest)))
            && (slack == 0 ==> r.lossTest - now.global < POLLING_OFF_MS + (r.lossTest - r.pollTest))
  {
    var now := AfterPoll(t, s, r);
    PollTickTimes(t, s, r, slack);
    DueExactly(now.global, r.lossTest, TIMEOUT_MS);
  }

  // ---- What goes out, and when ----------------------------------------------

  /** The debug tick is due, on true times: powered on, and 4 s since the last one or a wrap of the clock. */
  predicate DebugTime(mode: Mode, since: nat, now: nat) {
    mode == Running && (now - since >= 4000 || !SameTurn(since, now))
  }

  /** The poll tick: 1 s since the last tick of either kind when powered on, 5 s when powered off. */
  predicate PollTime(mode: Mode, since: nat, now: nat) {
    now - since >= (if mode == PowerOff then 5000 else 1000) || !SameTurn(since, now)
  }

  /** The times after an iteration's ticks: a debug tick starts all timers again, a poll tick the poll and
      the link timer. */
  function Ticked(mode: Mode, s: Stamps, r: Reads): Stamps {
    var d := if DebugTime(mode, s.debug, r.debugTest) then Stamps(r.debugSet, r.debugSet, r.debugSet, r.debugSet, r.debugSet)
             else s.(looked := r.debugTest);
    if PollTime(mode, d.poll, r.pollTest) then d.(poll := r.pollSet, global := r.pollSet, tested := r.pollSet)
    else d.(tested := r.pollTest)
  }

  /** The ticks, exactly.  A free loop sends a debug request when that is due, else a poll when that is;
      a busy one sends nothing; and whichever is due starts its timers again either way. */
  lemma TicksExactly(t: Task, s: Stamps, r: Reads, slack: nat)
    requires Timed(t, s, slack) && Timely(s, r, slack)
    ensures var h := Head(t, Millis(r));
            var since := if DebugTime(t.mode, s.debug, r.debugTest) then r.debugSet else s.poll;
            && h.sent == (if t.busy then []
                          else if DebugTime(t.mode, s.debug, r.debugTest) then [DataDebug]
                          else if PollTime(t.mode, since, r.pollTest) then [PollingBase]
                          else [])
            && (h.task.com != WbmError ==> Timed(h.task, Ticked(t.mode, s, r), slack))
            && AfterPoll(t, s, r) == Ticked(t.mode, s, r)
  {
    if t.mode == Running {
      DueExactly(s.debug, r.debugTest, DEBUG_MS);
    }
    var d := AfterDebug(t, s, r);
    DueExactly(d.poll, r.pollTest, PollPeriod(t.mode));
    LossExactly(t, s, r, slack);
    HeadSends(t, r);
  }

  lemma HeadSends(t: Task, r: Reads)
    requires t.mode != Initializing
    ensures var c := Millis(r);
            var debug := t.mode == Running && Due(c.debugTest, t.debugMs, DEBUG_MS);
            var since := if debug then c.debugSet else t.pollMs;
            Head(t, c).sent == if t.busy then [] else if debug then [DataDebug]
                               else if Due(c.pollTest, since, PollPeriod(t.mode)) then [PollingBase] else []
  {
  }

  // ---- Runs of iterations ---------------------------------------------------

  /** One iteration of the Connected loop: its clock reads, what its Read_Message call brings, and
      what the application does meanwhile. */
  datatype Turnover = Turnover(r: Reads, m: Msg, w: Meanwhile)

  type Iter = it: Turnover | it.m.Valid()
    witness Turnover(Reads(0, 0, 0, 0, 0, 0), Msg(0, Frame.Blank(), false, false), Meanwhile([], [], []))

  /** From the timers to the scheduler. */
  function Digested(t: Task, it: Iter): Task {
    AppRuns(Digest(AppRuns(t, it.w.reading), Millis(it.r), it.m), it.w.scheduling)
  }

  function Iterate(t: Task, it: Iter): Task {
    Scheduled(Digested(Head(t, Millis(it.r)).task, it), it.w.sending).task
  }

  function SentIn(t: Task, it: Iter): seq<Request> {
    var head := Head(t, Millis(it.r));
    head.sent + Scheduled(Digested(head.task, it), it.w.sending).sent
  }

  /** The true times after an iteration: a decoded message sets the link timer too. */
  function StampsAfter(t: Task, s: Stamps, it: Iter): Stamps {
    var now := AfterPoll(t, s, it.r);
    if it.m.code > Frame.RUN_DOWNLOAD then now.(global := it.r.stamp) else now
  }

  function Spin(t: Task, its: seq<Iter>): Task
    decreases |its|
  {
    if its == [] then t else Spin(Iterate(t, its[0]), its[1..])
  }

  /** Every iteration is timely, and the clock does not wrap inside the critical window of any. */
  predicate Calm(t: Task, s: Stamps, its: seq<Iter>, slack: nat)
    decreases |its|
  {
    its == [] ||
    (&& Timely(s, its[0].r, slack)
     && SameTurn(AfterPoll(t, s, its[0].r).global, its[0].r.lossTest)
     && Calm(Iterate(t, its[0]), StampsAfter(t, s, its[0]), its[1..], slack))
  }

  lemma DispatchTimers(t: Task, buf: seq<byte>)
    requires |buf| == Frame.BUFFER
    ensures var d := Dispatch(t, buf); d.pollMs == t.pollMs && d.debugMs == t.debugMs && d.globalMs == t.globalMs && d.mode == t.mode && d.com == t.com
  {
    DispatchIs(t, buf);
  }

  lemma DigestTimers(t: Task, c: Clock, m: Msg)
    requires m.Valid()
    ensures var d := Digest(t, c, m);
            && d.pollMs == t.pollMs && d.debugMs == t.debugMs && d.mode == t.mode && d.com == t.com
            && d.globalMs == if m.code > Frame.RUN_DOWNLOAD then c.stamp else t.globalMs
  {
    DispatchTimers(t.(globalMs := c.stamp), m.buf);
  }

  lemma {:induction false} AppTimers(t: Task, steps: seq<AppStep>)
    ensures var d := AppRuns(t, steps); d.pollMs == t.pollMs && d.debugMs == t.debugMs && d.globalMs == t.globalMs && d.mode == t.mode && d.com == t.com && d.busy == t.busy
    decreases |steps|
  {
    if steps != [] {
      AppTimers(t, steps[..|steps| - 1]);
      AppTimerStep(AppRuns(t, steps[..|steps| - 1]), steps[|steps| - 1]);
    }
  }

  lemma AppTimerStep(t: Task, a: AppStep)
    ensures var d := AppDoes(t, a); d.pollMs == t.pollMs && d.debugMs == t.debugMs && d.globalMs == t.globalMs && d.mode == t.mode && d.com == t.com && d.busy == t.busy
  {
  }

  lemma DigestedTimers(t: Task, it: Iter)
    ensures var d := Digested(t, it);
            && d.pollMs == t.pollMs && d.debugMs == t.debugMs && d.mode == t.mode && d.com == t.com
            && d.globalMs == if it.m.code > Frame.RUN_DOWNLOAD then Millis(it.r).stamp else t.globalMs
  {
    var a := AppRuns(t, it.w.reading);
    AppTimers(t, it.w.reading);
    DigestTimers(a, Millis(it.r), it.m);
    AppTimers(Digest(a, Millis(it.r), it.m), it.w.scheduling);
  }

  lemma ScheduledTimers(t: Task, during: seq<AppStep>)
    ensures var d := Scheduled(t, during).task; d.pollMs == t.pollMs && d.debugMs == t.debugMs && d.globalMs == t.globalMs && d.mode == t.mode && d.com == t.com
  {
    AppTimers(t, during);
  }

  lemma IterationKeepsTime(t: Task, s: Stamps, it: Iter, slack: nat)
    requires Timed(t, s, slack) && Timely(s, it.r, slack) && SameTurn(AfterPoll(t, s, it.r).global, it.r.lossTest)
    ensures Timed(Iterate(t, it), StampsAfter(t, s, it), slack)
  {
    var h := Head(t, Millis(it.r)).task;
    LossExactly(t, s, it.r, slack);
    DigestedTimers(h, it);
    ScheduledTimers(Digested(h, it), it.w.sending);
  }

  /** As long as no iteration sees the clock wrap in its window the link is never given up. */
  lemma {:induction false} NeverLost(t: Task, s: Stamps, its: seq<Iter>, slack: nat)
    requires Timed(t, s, slack) && Calm(t, s, its, slack)
    ensures Spin(t, its).com == WbmConnected
    decreases |its|
  {
    if its != [] {
      IterationKeepsTime(t, s, its[0], slack);
      NeverLost(Iterate(t, its[0]), StampsAfter(t, s, its[0]), its[1..], slack);
    }
  }

  function StampsOver(t: Task, s: Stamps, its: seq<Iter>): Stamps
    decreases |its|
  {
    if its == [] then s else StampsOver(Iterate(t, its[0]), StampsAfter(t, s, its[0]), its[1..])
  }

  lemma {:induction false} RunKeepsTime(t: Task, s: Stamps, its: seq<Iter>, slack: nat)
    requires Timed(t, s, slack) && Calm(t, s, its, slack)
    ensures Timed(Spin(t, its), StampsOver(t, s, its), slack)
    decreases |its|
  {
    if its != [] {
      IterationKeepsTime(t, s, its[0], slack);
      RunKeepsTime(Iterate(t, its[0]), StampsAfter(t, s, its[0]), its[1..], slack);
    }
  }

  /** After any number of iterations, powered on, a debug request goes out exactly when the loop is free
      and 4 s have passed since the last debug tick, and a poll exactly when it is free, no debug tick
      is due and 1 s has passed since the last tick; powered off, a poll every 5 s. */
  lemma TicksInEveryRun(t: Task, s: Stamps, its: seq<Iter>, r: Reads, slack: nat)
    requires Timed(t, s, slack) && Calm(t, s, its, slack) && Timely(StampsOver(t, s, its), r, slack)
    ensures var u, now := Spin(t, its), StampsOver(t, s, its);
            var sent := Head(u, Millis(r)).sent;
            && (DataDebug in sent <==> !u.busy && u.mode == Running && (r.debugTest - now.debug >= 4000 || !SameTurn(now.debug, r.debugTest)))
            && (PollingBase in sent <==>
                  && !u.busy && sent != [DataDebug]
                  && (r.pollTest - now.poll >= (if u.mode == PowerOff then 5000 else 1000) || !SameTurn(now.poll, r.pollTest)))
  {
    RunKeepsTime(t, s, its, slack);
    TicksExactly(Spin(t, its), StampsOver(t, s, its), r, slack);
  }

  /** In a busy iteration only a message that is taken frees the loop. */
  lemma BusyIteration(t: Task, s: Stamps, it: Iter, slack: nat)
    requires Timed(t, s, slack) && Timely(s, it.r, slack) && SameTurn(AfterPoll(t, s, it.r).global, it.r.lossTest)
    requires t.busy && !Consumes(it.m)
    ensures Iterate(t, it).busy && SentIn(t, it) == []
  {
    var c := Millis(it.r);
    TimerFacts(t, c);
    LossExactly(t, s, it.r, slack);
    StaysBusy(Head(t, c).task, it);
  }

  lemma StaysBusy(t: Task, it: Iter)
    requires t.busy && !Consumes(it.m)
    ensures Digested(t, it).busy
    ensures Scheduled(Digested(t, it), it.w.sending) == Quietly(Digested(t, it))
  {
    var a := AppRuns(t, it.w.reading);
    AppTimers(t, it.w.reading);
    DigestBusy(a, Millis(it.r), it.m);
    AppTimers(Digest(a, Millis(it.r), it.m), it.w.scheduling);
  }

  lemma DigestBusy(t: Task, c: Clock, m: Msg)
    requires m.Valid() && t.busy && !Consumes(m)
    ensures Digest(t, c, m).busy
  {
  }

  function SentOver(t: Task, its: seq<Iter>): seq<Request>
    decreases |its|
  {
    if its == [] then [] else SentIn(t, its[0]) + SentOver(Iterate(t, its[0]), its[1..])
  }

  /** The price: a reply that is lost altogether leaves the loop busy for good.  However long no
      message is taken, nothing is sent any more and yet the link counts as alive, since the timers
      are set again whether or not anything was sent. */
  lemma {:induction false} LostReplyWedges(t: Task, s: Stamps, its: seq<Iter>, slack: nat)
    requires Timed(t, s, slack) && Calm(t, s, its, slack) && t.busy
    requires forall i :: 0 <= i < |its| ==> !Consumes(its[i].m)
    ensures SentOver(t, its) == [] && Spin(t, its).busy && Spin(t, its).com == WbmConnected
    decreases |its|
  {
    if its != [] {
      IterationKeepsTime(t, s, its[0], slack);
      BusyIteration(t, s, its[0], slack);
      LostReplyWedges(Iterate(t, its[0]), StampsAfter(t, s, its[0]), its[1..], slack);
    }
  }

  /** The entry to the loop starts the bookkeeping: the poll timer is set when the handshake ends, the
      link timer was set when the last reply came. */
  lemma EntryIsTimed(t: Task, c: Clock, buf: seq<byte>, replyAt: nat, entered: nat)
    requires |buf| == Frame.BUFFER && t.globalMs == Wrap(replyAt) && c.stamp == Wrap(entered) && replyAt <= entered
    ensures Timed(FinishConnecting(t, c, buf), Stamps(entered, replyAt, entered, entered, entered), entered - replyAt)
  {
  }
}
