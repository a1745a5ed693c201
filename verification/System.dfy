/** The firmware and the ventilation unit together.  The unit answers each
    request once and truthfully, in a frame that arrives whole or damaged;
    between answers it changes its own memory as it likes, moving a section's
    counter with every change; the application writes whenever it likes. */
module Systems {
  import opened Layout
  import opened Frame
  import opened Requests
  import opened Link
  import opened Nodes
  import Mailbox

  // ---- The unit -------------------------------------------------------------

  /** The unit's memory, and how often each of its sections has changed.  A steady unit moves a
      counter with every write it takes, even one that changes nothing. */
  datatype Unit = Unit(mem: Image, vers: map<Section, int>, steady: bool)

  /** Configuration is another name of HWSetting. */
  function Home(k: Section): Section {
    if k == Configuration then HWSetting else k
  }

  function Ver(u: Unit, k: Section): int {
    if Home(k) in u.vers then u.vers[Home(k)] else 0
  }

  /** The counter in a section is its version's low byte. */
  predicate Counting(u: Unit) {
    forall k: Section :: Counted(k) ==> Counter(u.mem, k) == Ver(u, k) % 256
  }

  /** Section k gets new contents, and its counter, if it has one, moves on. */
  function Change(u: Unit, k: Section, data: seq<byte>): Unit
    requires |data| == Count(k)
  {
    var v := Ver(u, k) + 1;
    Unit(Patch(u.mem, Start(k), if Counted(k) then data[Count(k) - 1 := v % 256] else data), u.vers[Home(k) := v], u.steady)
  }

  lemma ChangeFacts(u: Unit, k: Section, data: seq<byte>)
    requires Counting(u) && |data| == Count(k)
    ensures var v := Change(u, k, data);
            && Counting(v) && Stored(v.mem, k, data) && v.steady == u.steady
            && (forall j: Section :: Ver(v, j) == Ver(u, j) + if SameBytes(j, k) then 1 else 0)
            && (forall j: Section :: !SameBytes(j, k) ==> Bytes(v.mem, j) == Bytes(u.mem, j))
  {
    ChangedVersions(u, k, data);
    ChangedBytes(u, k, data);
    ChangedCounters(u, k, data);
  }

  lemma ChangedBytes(u: Unit, k: Section, data: seq<byte>)
    requires |data| == Count(k)
    ensures var m := Change(u, k, data).mem;
            && Stored(m, k, data) && (Counted(k) ==> Counter(m, k) == (Ver(u, k) + 1) % 256)
            && forall j: Section :: !SameBytes(j, k) ==> Bytes(m, j) == Bytes(u.mem, j)
  {
    var bytes := if Counted(k) then data[Count(k) - 1 := (Ver(u, k) + 1) % 256] else data;
    var m := Change(u, k, data).mem;
    PatchSection(u.mem, k, bytes);
    CounterIsLast(m, k);
    assert Bytes(m, k) == bytes;
  }

  lemma ChangedCounters(u: Unit, k: Section, data: seq<byte>)
    requires Counting(u) && |data| == Count(k)
    ensures Counting(Change(u, k, data))
  {
    var v := Change(u, k, data);
    ChangedVersions(u, k, data);
    ChangedBytes(u, k, data);
    forall j: Section | Counted(j)
      ensures Counter(v.mem, j) == Ver(v, j) % 256
    {
      CounterIsLast(v.mem, j);
      CounterIsLast(u.mem, j);
      assert j != k ==> !SameBytes(j, k);
    }
  }

  lemma ChangedVersions(u: Unit, k: Section, data: seq<byte>)
    requires |data| == Count(k)
    ensures forall j: Section :: Ver(Change(u, k, data), j) == Ver(u, j) + if SameBytes(j, k) then 1 else 0
  {
  }

  /** Section k holds the data, up to the counter the unit keeps itself. */
  predicate Stored(m: Image, k: Section, data: seq<byte>) {
    && |data| == Count(k)
    && if Counted(k) then Bytes(m, k)[..Count(k) - 1] == data[..Count(k) - 1] else Bytes(m, k) == data
  }

  /** v is u some changes later. */
  predicate Later(u: Unit, v: Unit) {
    forall k: Section :: Ver(u, k) <= Ver(v, k) && (Ver(u, k) == Ver(v, k) ==> Bytes(u.mem, k) == Bytes(v.mem, k))
  }

  // ---- The wire -------------------------------------------------------------

  /** Nothing outstanding; a request the unit has not answered; an answer the firmware has not taken,
      with the unit as it was when it answered; an answer damaged on its way; a disturbance nobody
      asked for; a request whose damaged answer the handshake has passed over. */
  datatype Wire =
    | Quiet
    | Asked(q: Request)
    | Answered(q: Request, f: seq<byte>, at: Unit)
    | Garbled(q: Request, f: seq<byte>)
    | Noise(f: seq<byte>)
    | Dead(q: Request)

  /** The firmware has asked and not been told. */
  predicate Pending(w: Wire) {
    w.Asked? || w.Answered? || w.Garbled?
  }

  predicate InMailbox(w: Wire) {
    w.Answered? || w.Garbled? || w.Noise?
  }

  /** A request for section k that will be, or has been, answered well. */
  predicate Carries(w: Wire, k: Section) {
    (w.Asked? || w.Answered?) && (w.q == ReadEeprom(k) || (w.q.WriteEeprom? && w.q.k == k))
  }

  /** A burst Read_Message reports as an error. */
  predicate Garbage(f: seq<byte>) {
    0 < |f| < BUFFER && Judge(Padded(f), |f|) < 0
  }

  /** Frame f is a truthful answer to q by a unit with memory m. */
  predicate Replies(q: Request, f: seq<byte>, m: Image) {
    && IsFrame(f)
    && match q
       case PollingBase =>
         && |f| >= 44 && f[TYPE_COMAND] == COMMAND_POLLING_BASE
         && f[38] == Counter(m, Info) && f[39] == Counter(m, SettingPar) && f[40] == Counter(m, SetTemp) && f[41] == Counter(m, DayProg)
       case DataDebug => f[TYPE_COMAND] == COMMAND_DATA_DEBUG
       case ReadEeprom(k) =>
         && |f| == Count(k) + 8 && f[TYPE_COMAND] == COMMAND_READ_EEPROM
         && f[4] == Start(k) && f[5] == Count(k) && f[6..6 + Count(k)] == Bytes(m, k)
       case WriteEeprom(_, _) =>
         && |f| >= 13 && f[TYPE_COMAND] == COMMAND_WRITE_EEPROM
         && f[7] == Counter(m, Info) && f[8] == Counter(m, SettingPar) && f[9] == Counter(m, SetTemp) && f[10] == Counter(m, DayProg)
  }

  predicate RxOk(rx: Rx, w: Wire) {
    if InMailbox(w) then Mailbox.Waiting(rx, w.f) || Mailbox.Claimed(rx, w.f) else Mailbox.Idle(rx)
  }

  /** The last version of a counted section the firmware knows of, per section. */
  type Seen = map<Section, int>

  predicate WireOk(w: Wire, u: Unit) {
    && (w.Answered? ==>
          && Replies(w.q, w.f, w.at.mem) && Counting(w.at) && Later(w.at, u)
          && (w.q.WriteEeprom? ==> Stored(w.at.mem, w.q.k, w.q.data)))
    && (w.Garbled? || w.Noise? ==> Garbage(w.f))
  }

  // ---- The whole system -----------------------------------------------------

  datatype System = System(node: Node, unit: Unit, wire: Wire, seen: Seen)

  datatype Event =
    | Loop(c: Clock, io: Io)                      // one part of a firmware loop iteration
    | Answer(f: seq<byte>, bump: bool)            // the unit answers; bump: a write moves the counter
    | Garble(f: seq<byte>, bump: bool)            // the same, but its answer arrives damaged, as f
    | Static(f: seq<byte>)                        // a disturbance on the idle line
    | UnitChange(k: Section, data: seq<byte>)     // somebody changes a section at the unit
    | App(step: AppStep)                          // a step of a task that writes for the application

  /** Counter wrap-around: one more change of k must not bring its counter back to the value the
      firmware has recorded, or is about to. */
  predicate Fresh(s: System, k: Section) {
    Counted(k) ==>
      && (k in s.seen ==> Ver(s.unit, k) + 1 < s.seen[k] + 256)
      && (s.wire.Answered? && s.wire.q == ReadEeprom(k) ==> Ver(s.unit, k) + 1 < Ver(s.wire.at, k) + 256)
  }

  function Reaction(u: Unit, q: Request, bump: bool): Unit
    requires q.WriteEeprom? ==> |q.data| == Count(q.k)
  {
    if q.WriteEeprom? && bump then Change(u, q.k, q.data) else u
  }

  /** The search is about to give up on its poll. */
  predicate GivesUp(n: Node, c: Clock) {
    n.at == Top && n.task.com == WbmCommunicating && n.task.conn == TrySerialLink && TimedOut(n.task, c)
  }

  /** The unit can answer, and moves the counter of a section it is made to write unless the write
      leaves the section as it is. */
  predicate CanAnswer(s: System, bump: bool) {
    && s.wire.Asked?
    && (s.wire.q.WriteEeprom? ==>
          && |s.wire.q.data| == Count(s.wire.q.k)
          && (if bump then Fresh(s, s.wire.q.k) else !s.unit.steady && Stored(s.unit.mem, s.wire.q.k, s.wire.q.data)))
  }

  /** The environment's part of the bargain. */
  predicate Enabled(s: System, a: Event) {
    match a
    case Loop(c, io) =>
      && (GivesUp(s.node, c) ==> !InMailbox(s.wire))
      && (s.wire.Noise? ==> TickEffect(s.node, c, io, map[]).sent == [])
    case Answer(f, bump) => CanAnswer(s, bump) && Replies(s.wire.q, f, Reaction(s.unit, s.wire.q, bump).mem)
    case Garble(f, bump) => CanAnswer(s, bump) && Garbage(f)
    case Static(f) => s.node.task.com == WbmConnected && s.wire.Quiet? && Garbage(f)
    case UnitChange(k, data) => |data| == Count(k) && Fresh(s, k)
    case App(_) => true
  }

  /** What the firmware's tick hears. */
  function Heard(n: Node, c: Clock): (m: Msg)
    ensures m.Valid()
  {
    if n.at == Reading then Hear(n.rx, map[]).1
    else if n.at == Top && n.task.com == WbmCommunicating then Listen(n.task, c, n.rx, map[]).1
    else Recall(n.rx)
  }

  /** The line after a Read_Message call with this result. */
  function Drained(w: Wire, code: int, inLoop: bool): Wire {
    if code > RUN_DOWNLOAD then Quiet
    else if code < 0 then if w.Garbled? && !inLoop then Dead(w.q) else Quiet
    else w
  }

  function WireAfter(w: Wire, sent: seq<Request>): Wire {
    if sent != [] then Asked(sent[0]) else w
  }

  /** The version with counter x nearest below the unit's. */
  function Anchor(u: Unit, k: Section, x: byte): (v: int)
    ensures v <= Ver(u, k) < v + 256
  {
    Ver(u, k) - (Ver(u, k) - x) % 256
  }

  function Anchors(u: Unit, c: Counters): Seen {
    map[Info := Anchor(u, Info, c.info), SettingPar := Anchor(u, SettingPar, c.setting),
        SetTemp := Anchor(u, SetTemp, c.settemp), DayProg := Anchor(u, DayProg, c.weekly)]
  }

  function Snapshot(u: Unit): Seen {
    map[Info := Ver(u, Info), SettingPar := Ver(u, SettingPar), SetTemp := Ver(u, SetTemp), DayProg := Ver(u, DayProg)]
  }

  /** A polling reply in the Connected loop and a section reply in the handshake tell the firmware a
      version; at the end of the handshake it records the mirror's counters. */
  function SeenAfter(s: System, took: bool, now: Task): Seen {
    if took && s.wire.Answered? && s.node.at != Top && s.wire.q == PollingBase then Snapshot(s.wire.at)
    else if took && s.wire.Answered? && s.node.at == Top && s.wire.q.ReadEeprom? then s.seen[Home(s.wire.q.k) := Ver(s.wire.at, s.wire.q.k)]
    else if s.node.task.com == WbmCommunicating && now.com == WbmConnected then Anchors(s.unit, now.ext)
    else s.seen
  }

  function Looped(s: System, c: Clock, io: Io): System {
    var e := TickEffect(s.node, c, io, map[]);
    var code := Heard(s.node, c).code;
    var w := if GivesUp(s.node, c) then Quiet else Drained(s.wire, code, s.node.at != Top);
    System(e.node, s.unit, WireAfter(w, e.sent), SeenAfter(s, code > RUN_DOWNLOAD, e.node.task))
  }

  function Arrived(s: System, w: Wire, u: Unit): System
    requires InMailbox(w)
  {
    s.(unit := u, wire := w, node := s.node.(rx := Mailbox.Arrive(s.node.rx, w.f)))
  }

  function Step(s: System, a: Event): System
    requires Enabled(s, a)
  {
    match a
    case Loop(c, io) => Looped(s, c, io)
    case Answer(f, bump) =>
      var u := Reaction(s.unit, s.wire.q, bump);
      Arrived(s, Answered(s.wire.q, f, u), u)
    case Garble(f, bump) => Arrived(s, Garbled(s.wire.q, f), Reaction(s.unit, s.wire.q, bump))
    case Static(f) => Arrived(s, Noise(f), s.unit)
    case UnitChange(k, data) => s.(unit := Change(s.unit, k, data))
    case App(step) => s.(node := s.node.(task := AppDoes(s.node.task, step)))
  }
}
