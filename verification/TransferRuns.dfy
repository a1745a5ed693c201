/** The bootloader transfer over whole runs of the firmware: after j ACKs taken
    the unit has been sent the header and the first j blocks of the image. */
module TransferRuns {
  import opened Layout
  import opened Link
  import opened Nodes
  import opened Bootloader
  import opened Frame
  import Mailbox

  predicate Transferring(conn: Conn) {
    conn == BootloaderState1 || conn == BootloaderStateEnd
  }

  /** The transfer as it was before the first ACK. */
  function Origin(x: Transfer): Transfer {
    x.(pos := 0, sent := 0)
  }

  /** The header names the image; the blocks sent, and those still to come, are the image's. */
  predicate OnTrack(x: Transfer, ended: bool, header: seq<byte>, blocks: seq<seq<byte>>) {
    && InStep(x) && header == Header(x.size, x.first)
    && (x == NO_TRANSFER || Origin(x) == Bootloader.Begin(NO_TRANSFER, Readable(x.file)).0)
    && (x.size > 0 ==> x.sent < x.size && blocks + (if ended then [] else Blocks(x)) == Blocks(Origin(x)))
  }

  predicate Tracked(h: History) {
    var t := h.node.task;
    if Transferring(t.conn) then OnTrack(t.xfer, t.conn == BootloaderStateEnd, h.header, h.blocks)
    else t.xfer == NO_TRANSFER && h.header == [] && h.blocks == []
  }

  lemma OpenTracks(m: Medium)
    ensures var (x, header) := Bootloader.Begin(NO_TRANSFER, m);
            OnTrack(x, !m.Readable?, header, [])
  {
    var (x, header) := Bootloader.Begin(NO_TRANSFER, m);
    if m.Readable? {
      assert Origin(x) == x;
      assert [] + Blocks(x) == Blocks(x);
    } else {
      assert x == NO_TRANSFER;
    }
  }

  /** One ACK, one block. */
  lemma AckTracks(x: Transfer, header: seq<byte>, blocks: seq<seq<byte>>)
    requires OnTrack(x, false, header, blocks)
    ensures var (y, chars, last) := Bootloader.OnAck(x); OnTrack(y, last, header, blocks + [chars])
  {
    var (y, chars, last) := Bootloader.OnAck(x);
    assert Origin(y) == Origin(x);
    if x.size > 0 {
      assert chars != [];
      assert Blocks(x) == [chars] + (if last then [] else Blocks(y));
      assert blocks + [chars] + (if last then [] else Blocks(y)) == blocks + Blocks(x);
    }
  }

  lemma {:induction false} NextTracks(h: History, a: Action)
    requires Sane(h) && Tracked(h)
    ensures Tracked(Next(h, a))
  {
    match a
    case Burst(bytes) =>
    case App(step) => AppFacts(h.node.task, step);
    case Tick(c, io, during) =>
      if h.node.at == Top && h.node.task.com == WbmCommunicating {
        ConnectTracks(h, c, io, during);
      } else {
        OtherTracks(h, c, io, during);
      }
  }

  lemma OtherTracks(h: History, c: Clock, io: Io, during: Mailbox.Arrivals)
    requires Sane(h) && Tracked(h) && !(h.node.at == Top && h.node.task.com == WbmCommunicating)
    ensures Tracked(Record(h, TickEffect(h.node, c, io, during)))
  {
    var t := h.node.task;
    if h.node.at == Top && t.com == WbmConnected {
      TimerFacts(t, c);
    } else if h.node.at == Reading {
      var (r, m) := Hear(h.node.rx, during);
      DigestPhase(t, c, m);
    }
  }

  /** A step that neither opens nor feeds a transfer. */
  predicate Plain(t: Task, out: Out) {
    out.task.xfer == t.xfer && !Transferring(out.task.conn) && !out.ackTaken && out.chars == []
  }

  lemma PlainTracks(h: History, out: Out, r: Rx)
    requires Tracked(h) && h.node.at == Top && h.node.task.com == WbmCommunicating
    requires !Transferring(h.node.task.conn) && Plain(h.node.task, out)
    ensures Tracked(Record(h, StepEffect(h.node, out, r)))
  {
  }

  lemma LinkPlain(t: Task, c: Clock)
    requires t.conn in {Init, LinkConnecting, LinkConnected}
    ensures Plain(t, LinkStep(t, c))
  {
  }

  lemma SectionPlain(t: Task, c: Clock, m: Msg)
    requires m.Valid() && ReadStage(t.conn)
    ensures Plain(t, SectionMessage(t, c, m))
  {
  }

  lemma ReplyPlain(t: Task, c: Clock, m: Msg)
    requires m.Valid() && AwaitsReply(t.conn)
    ensures Plain(t, ReplyStep(t, c, m))
  {
    if ReadStage(t.conn) { SectionPlain(t, c, m); }
  }

  lemma OpenStep(h: History, io: Io, r: Rx)
    requires Tracked(h) && h.node.at == Top && h.node.task.com == WbmCommunicating && h.node.task.conn == BootloaderState
    ensures Tracked(Record(h, StepEffect(h.node, EnterBootloader(h.node.task, io), r)))
  {
    OpenTracks(io.medium);
  }

  lemma AckStep(h: History, m: Msg, r: Rx)
    requires Tracked(h) && h.node.at == Top && h.node.task.com == WbmCommunicating && h.node.task.conn == BootloaderState1 && m.Valid()
    ensures Tracked(Record(h, StepEffect(h.node, Acknowledged(h.node.task, m), r)))
  {
    AckTracks(h.node.task.xfer, h.header, h.blocks);
  }

  lemma FinishPlain(t: Task, c: Clock, buf: seq<byte>)
    requires |buf| == BUFFER && t.conn == Connected
    ensures Plain(t, Quietly(FinishConnecting(t, c, buf)))
  {
  }

  /** A node in the handshake or the bootloader states. */
  predicate Talking(h: History) {
    Tracked(h) && h.node.at == Top && h.node.task.com == WbmCommunicating
  }

  lemma PlainStep(h: History, c: Clock, io: Io, m: Msg, r: Rx)
    requires Talking(h) && m.Valid() && h.node.task.conn !in {BootloaderState, BootloaderState1, BootloaderStateEnd}
    ensures Tracked(Record(h, StepEffect(h.node, Connect(h.node.task, c, m, io), r)))
  {
    ConnectPlain(h.node.task, c, m, io);
    PlainTracks(h, Connect(h.node.task, c, m, io), r);
  }

  lemma ConnectPlain(t: Task, c: Clock, m: Msg, io: Io)
    requires m.Valid() && t.conn !in {BootloaderState, BootloaderState1, BootloaderStateEnd}
    ensures Plain(t, Connect(t, c, m, io))
  {
    ConnectIs(t, c, m, io);
    RestIs(t, c, m, io);
    if t.conn == Connected { FinishPlain(t, c, m.buf); }
    else if AwaitsReply(t.conn) { ReplyPlain(t, c, m); }
    else { LinkPlain(t, c); }
  }

  lemma TransferStep(h: History, c: Clock, io: Io, m: Msg, r: Rx)
    requires Talking(h) && m.Valid() && h.node.task.conn in {BootloaderState, BootloaderState1, BootloaderStateEnd}
    ensures Tracked(Record(h, StepEffect(h.node, Connect(h.node.task, c, m, io), r)))
  {
    ConnectIs(h.node.task, c, m, io);
    RestIs(h.node.task, c, m, io);
    if h.node.task.conn == BootloaderState { OpenStep(h, io, r); }
    else if h.node.task.conn == BootloaderState1 { AckStep(h, m, r); }
    else { IdleStep(h, r); }
  }

  lemma IdleStep(h: History, r: Rx)
    requires Talking(h) && h.node.task.conn == BootloaderStateEnd
    ensures Tracked(Record(h, StepEffect(h.node, Quietly(h.node.task), r)))
  {
  }

  lemma ConnectTracks(h: History, c: Clock, io: Io, during: Mailbox.Arrivals)
    requires Talking(h)
    ensures Tracked(Record(h, ConnectEffect(h.node, c, io, during)))
  {
    var (r, m) := Listen(h.node.task, c, h.node.rx, during);
    if h.node.task.conn in {BootloaderState, BootloaderState1, BootloaderStateEnd} { TransferStep(h, c, io, m, r); }
    else { PlainStep(h, c, io, m, r); }
  }

  lemma {:induction false} AlwaysTracked(mirror: Image, actions: seq<Action>)
    ensures Tracked(Run(PowerUp(mirror), actions))
    decreases |actions|
  {
    if actions != [] {
      var last := |actions| - 1;
      AlwaysSane(mirror, actions[..last]);
      AlwaysTracked(mirror, actions[..last]);
      NextTracks(Run(PowerUp(mirror), actions[..last]), actions[last]);
    }
  }

  /** In every state of every run that has got as far as the transfer of a non-empty image, the unit has
      been sent the header and, for the ACKs taken since, one block each, the first ones of the image;
      once the transfer is over these are all ceil(n / 16) of them and decode to the whole words of the
      image, so to the image itself exactly if its length is a multiple of four. */
  lemma TransferInRun(mirror: Image, actions: seq<Action>)
    requires var t := Run(PowerUp(mirror), actions).node.task; Transferring(t.conn) && t.xfer.file != []
    ensures var h := Run(PowerUp(mirror), actions);
            var file := h.node.task.xfer.file;
            var all := Blocks(Bootloader.Begin(NO_TRANSFER, Readable(file)).0);
            && |h.header| == HEADER && SizeIn(h.header) == |file| % 0x100_0000
            && (|file| >= 4 ==> WordIn(h.header) == Word32(file[..4]))
            && |h.blocks| <= |all| && h.blocks == all[..|h.blocks|]
            && (h.node.task.conn == BootloaderStateEnd ==>
                  && h.blocks == all && |h.blocks| == BlockCount(|file|)
                  && DecodeAll(h.blocks) == Whole(file) && (DecodeAll(h.blocks) == file <==> |file| % 4 == 0))
  {
    AlwaysTracked(mirror, actions);
    TrackedTransfer(Run(PowerUp(mirror), actions));
  }

  lemma TrackedTransfer(h: History)
    requires Tracked(h) && Transferring(h.node.task.conn) && h.node.task.xfer.file != []
    ensures var file := h.node.task.xfer.file;
            var all := Blocks(Bootloader.Begin(NO_TRANSFER, Readable(file)).0);
            && |h.header| == HEADER && SizeIn(h.header) == |file| % 0x100_0000
            && (|file| >= 4 ==> WordIn(h.header) == Word32(file[..4]))
            && |h.blocks| <= |all| && h.blocks == all[..|h.blocks|]
            && (h.node.task.conn == BootloaderStateEnd ==>
                  && h.blocks == all && |h.blocks| == BlockCount(|file|)
                  && DecodeAll(h.blocks) == Whole(file) && (DecodeAll(h.blocks) == file <==> |file| % 4 == 0))
  {
    var x := h.node.task.xfer;
    var y := Bootloader.Begin(NO_TRANSFER, Readable(x.file)).0;
    assert Origin(x) == y;
    assert h.header == Bootloader.Begin(NO_TRANSFER, Readable(x.file)).1;
    TransferHeader(x.file, NO_TRANSFER);
    TransferBody(x.file, NO_TRANSFER);
  }

  // ---- A transfer that happens ----------------------------------------------

  const C0 := Clock(0, 0, 0, 0, 0, 0)

  /** A run leads to h. */
  ghost predicate Reached(mirror: Image, h: History) {
    exists actions :: Run(PowerUp(mirror), actions) == h
  }

  lemma ReachedNext(mirror: Image, h: History, a: Action)
    requires Reached(mirror, h)
    ensures Reached(mirror, Next(h, a))
  {
    var actions :| Run(PowerUp(mirror), actions) == h;
    assert (actions + [a])[..|actions + [a]| - 1] == actions;
    assert Run(PowerUp(mirror), actions + [a]) == Next(h, a);
  }

  function Ticked(io: Io): Action {
    Tick(C0, io, map[])
  }

  const WAIT := Io(true, Missing)

  /** Searching, with nothing heard yet. */
  predicate Calling(n: Node) {
    && n.at == Top && n.task.com == WbmCommunicating && n.task.conn == TrySerialLink && n.task.globalMs == 0
    && Mailbox.Idle(n.rx) && !n.rx.boot && !n.rx.ack && n.task.xfer == NO_TRANSFER
  }

  lemma StartCalling(mirror: Image) returns (h: History)
    ensures Reached(mirror, h) && Calling(h.node)
  {
    var a := PowerUp(mirror);
    assert Run(a, []) == a;
    var b := Next(a, Ticked(WAIT));
    ReachedNext(mirror, a, Ticked(WAIT));
    var c := Next(b, Ticked(WAIT));
    ReachedNext(mirror, b, Ticked(WAIT));
    LinkTick(b);
    h := Next(c, Ticked(WAIT));
    ReachedNext(mirror, c, Ticked(WAIT));
    LinkTick(c);
  }

  lemma LinkTick(h: History)
    requires h.node.at == Top && h.node.task.com == WbmCommunicating && h.node.task.conn in {Init, LinkConnecting}
    ensures var n := Next(h, Ticked(WAIT)).node; n.task == LinkStep(h.node.task, C0).task && n.rx == h.node.rx && n.at == Top
  {
    ListenIs(h.node.task, C0, h.node.rx, map[]);
    ConnectIs(h.node.task, C0, Recall(h.node.rx), WAIT);
  }

  /** A burst comes and is looked at once: a stage that waits stays as it is. */
  lemma Burst1(mirror: Image, h: History, f: seq<byte>) returns (g: History)
    requires Reached(mirror, h) && 0 < |f| < Frame.BUFFER && Mailbox.Idle(h.node.rx) && !h.node.rx.ack
    requires h.node.at == Top && h.node.task.com == WbmCommunicating && h.node.task.globalMs == 0
    requires h.node.task.conn == BootloaderState1 || (h.node.task.conn == TrySerialLink && !h.node.rx.boot)
    ensures Reached(mirror, g) && Mailbox.Claimed(g.node.rx, f)
    ensures g.node == Node(h.node.task, g.node.rx, Top) && g.node.rx.boot == h.node.rx.boot && !g.node.rx.ack
  {
    var b := Next(h, Burst(f));
    ReachedNext(mirror, h, Burst(f));
    Mailbox.ArriveIdle(h.node.rx, f);
    g := Next(b, Ticked(WAIT));
    ReachedNext(mirror, b, Ticked(WAIT));
    FirstGlance(b.node, f);
  }

  lemma FirstGlance(n: Node, f: seq<byte>)
    requires Mailbox.Waiting(n.rx, f) && !n.rx.ack
    requires n.at == Top && n.task.com == WbmCommunicating && n.task.globalMs == 0
    requires n.task.conn == BootloaderState1 || (n.task.conn == TrySerialLink && !n.rx.boot)
    ensures var m := TickEffect(n, C0, WAIT, map[]).node;
            && Mailbox.Claimed(m.rx, f) && m == Node(n.task, m.rx, Top) && m.rx.boot == n.rx.boot && !m.rx.ack
  {
    var t := n.task;
    var (r, m) := Hear(n.rx, map[]);
    Mailbox.ReadWaiting(n.rx, f);
    ListenIs(t, C0, n.rx, map[]);
    ConnectIs(t, C0, m, WAIT);
    RestIs(t, C0, m, WAIT);
  }

  /** The bootloader calls. */
  lemma Called(mirror: Image, h: History) returns (g: History)
    requires Reached(mirror, h) && Calling(h.node)
    ensures Reached(mirror, g) && g.node.at == Top && g.node.task == h.node.task.(conn := BootloaderState)
    ensures Mailbox.Idle(g.node.rx) && !g.node.rx.ack
  {
    var b := Burst1(mirror, h, BOOTLOADER);
    g := Next(b, Ticked(WAIT));
    ReachedNext(mirror, b, Ticked(WAIT));
    Mailbox.TokensRead();
    CallTaken(b.node);
  }

  lemma CallTaken(n: Node)
    requires Mailbox.Claimed(n.rx, BOOTLOADER) && !n.rx.boot && !n.rx.ack
    requires n.at == Top && n.task.com == WbmCommunicating && n.task.conn == TrySerialLink && n.task.globalMs == 0
    ensures var m := TickEffect(n, C0, WAIT, map[]).node;
            m.at == Top && m.task == n.task.(conn := BootloaderState) && Mailbox.Idle(m.rx) && !m.rx.ack
  {
    var t := n.task;
    var (r, m) := Hear(n.rx, map[]);
    Mailbox.TokensRead();
    Mailbox.ReadClaimed(n.rx, BOOTLOADER);
    ListenIs(t, C0, n.rx, map[]);
    ConnectIs(t, C0, m, WAIT);
    assert ReplyStep(t, C0, m) == Quietly(SerialMessage(t, m));
  }

  /** Waiting for an ACK with something left to send. */
  predicate Sending(n: Node, content: seq<byte>) {
    && n.at == Top && n.task.com == WbmCommunicating && n.task.conn == BootloaderState1 && n.task.globalMs == 0
    && Mailbox.Idle(n.rx) && !n.rx.ack
    && InStep(n.task.xfer) && n.task.xfer.file == content && n.task.xfer.sent < |content|
  }

  /** The image is opened. */
  lemma Opened(mirror: Image, h: History, content: seq<byte>) returns (g: History)
    requires Reached(mirror, h) && h.node.at == Top && h.node.task.com == WbmCommunicating && h.node.task.conn == BootloaderState
    requires h.node.task.xfer == NO_TRANSFER && h.node.task.globalMs == 0 && Mailbox.Idle(h.node.rx) && !h.node.rx.ack && content != []
    ensures Reached(mirror, g) && Sending(g.node, content)
  {
    var io := Io(false, Readable(content));
    g := Next(h, Ticked(io));
    ReachedNext(mirror, h, Ticked(io));
    ListenIs(h.node.task, C0, h.node.rx, map[]);
    ConnectIs(h.node.task, C0, Recall(h.node.rx), io);
    RestIs(h.node.task, C0, Recall(h.node.rx), io);
  }

  /** One ACK. */
  lemma AckComes(mirror: Image, h: History, content: seq<byte>) returns (g: History)
    requires Reached(mirror, h) && Sending(h.node, content)
    ensures Reached(mirror, g)
    ensures if g.node.task.conn == BootloaderStateEnd then g.node.task.xfer.file == content
            else Sending(g.node, content) && g.node.task.xfer.sent == h.node.task.xfer.sent + BLOCK
  {
    var b := Burst1(mirror, h, ACK);
    g := Next(b, Ticked(WAIT));
    ReachedNext(mirror, b, Ticked(WAIT));
    AckTaken(b.node, content);
  }

  lemma AckTaken(n: Node, content: seq<byte>)
    requires Mailbox.Claimed(n.rx, ACK) && !n.rx.ack
    requires n.at == Top && n.task.com == WbmCommunicating && n.task.conn == BootloaderState1 && n.task.globalMs == 0
    requires InStep(n.task.xfer) && n.task.xfer.file == content && n.task.xfer.sent < |content|
    ensures var m := TickEffect(n, C0, WAIT, map[]).node;
            if m.task.conn == BootloaderStateEnd then m.task.xfer.file == content
            else Sending(m, content) && m.task.xfer.sent == n.task.xfer.sent + BLOCK
  {
    var t := n.task;
    var (r, m) := Hear(n.rx, map[]);
    Mailbox.TokensRead();
    Mailbox.ReadClaimed(n.rx, ACK);
    ListenIs(t, C0, n.rx, map[]);
    ConnectIs(t, C0, m, WAIT);
    RestIs(t, C0, m, WAIT);
  }

  lemma {:induction false} AcksCome(mirror: Image, h: History, content: seq<byte>) returns (g: History)
    requires Reached(mirror, h) && Sending(h.node, content)
    ensures Reached(mirror, g) && g.node.task.conn == BootloaderStateEnd && g.node.task.xfer.file == content
    decreases |content| - h.node.task.xfer.sent
  {
    g := AckComes(mirror, h, content);
    if g.node.task.conn != BootloaderStateEnd {
      g := AcksCome(mirror, g, content);
    }
  }

  /** For every image there is a run from power-up, the bootloader calling and acknowledging, in which all
      of it is sent. */
  lemma TransferHappens(mirror: Image, content: seq<byte>)
    requires content != []
    ensures exists actions ::
              var h := Run(PowerUp(mirror), actions);
              && h.node.task.conn == BootloaderStateEnd && h.node.task.xfer.file == content
              && |h.blocks| == BlockCount(|content|) && DecodeAll(h.blocks) == Whole(content)
  {
    var a := StartCalling(mirror);
    var b := Called(mirror, a);
    var c := Opened(mirror, b, content);
    var d := AcksCome(mirror, c, content);
    var actions :| Run(PowerUp(mirror), actions) == d;
    TransferInRun(mirror, actions);
  }
}
