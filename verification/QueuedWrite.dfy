/** The three ways an EEPROM payload comes in: one BLE write, a BLE queued write
    that is prepared in pieces and then executed (Bluetooth Core Specification,
    Vol 3, Part F, section 3.4.6), and an MQTT message.  All three leave the same
    mirror and raise the same request bits. */
module QueuedWrite {
  import opened Layout
  import opened Link
  import opened Globals

  const PREPARE_BUF_MAX_SIZE: nat := 1024

  datatype Status = Ok | NoResources | InvalidOffset | InvalidAttrLen

  /** A prepared piece, with the attribute handle it is for. */
  datatype Chunk = Chunk(handle: nat, offset: nat, value: seq<byte>)

  /** The prepare buffer: absent, or its bytes, the sum of the lengths received and the handle of
      the first piece. */
  datatype Prepare = Empty | Prepare(buf: seq<byte>, len: nat, handle: nat) {
    predicate Valid() { Prepare? ==> |buf| == PREPARE_BUF_MAX_SIZE }
  }

  /** memcpy into the buffer.  Only the first piece can run past its end, for it alone is not checked;
      the part that fits is kept. */
  function Copied(buf: seq<byte>, at: nat, data: seq<byte>): (r: seq<byte>)
    ensures |r| == |buf|
    ensures forall i :: 0 <= i < |buf| ==> r[i] == if at <= i < at + |data| then data[i - at] else buf[i]
  {
    seq(|buf|, i requires 0 <= i < |buf| => if at <= i < at + |data| then data[i - at] else buf[i])
  }

  /** A piece is copied whole, as the code's memcpy would, exactly if it ends inside the buffer; from the
      second piece on the length test sees to that. */
  lemma CopiedWhole(buf: seq<byte>, at: nat, data: seq<byte>)
    requires data != []
    ensures at + |data| <= |buf| <==> at <= |buf| && exists tail :: Copied(buf, at, data) == buf[..at] + data + tail
  {
    if at + |data| <= |buf| {
      assert Copied(buf, at, data) == buf[..at] + data + buf[at + |data|..];
    } else if at <= |buf| {
      forall tail
        ensures Copied(buf, at, data) != buf[..at] + data + tail
      {
        assert |buf[..at] + data + tail| > |buf|;
      }
    }
  }

  /** One prepared piece.  `block` is what malloc returns, with whatever bytes it holds.  The handle kept
      is the first piece's. */
  function Prepared(p: Prepare, c: Chunk, block: Prepare): (Prepare, Status) {
    match p
    case Empty =>
      if block.Empty? then (Empty, NoResources)
      else (Prepare(Copied(block.buf, c.offset, c.value), |c.value|, c.handle), Ok)
    case Prepare(buf, len, h) =>
      if c.offset > PREPARE_BUF_MAX_SIZE then (p, InvalidOffset)
      else if c.offset + |c.value| > PREPARE_BUF_MAX_SIZE then (p, InvalidAttrLen)
      else (Prepare(Copied(buf, c.offset, c.value), len + |c.value|, h), Ok)
  }

  /** What the pieces of a queued write leave in the buffer. */
  function PreparedAll(cs: seq<Chunk>, block: Prepare): Prepare {
    if cs == [] then Empty else Prepared(PreparedAll(cs[..|cs| - 1], block), cs[|cs| - 1], block).0
  }

  /** Why a piece is refused.  The first needs a block and is not looked at; a later one may start at the
      buffer's end at most and must end inside the buffer.  A refused piece changes nothing. */
  lemma PieceRefused(p: Prepare, c: Chunk, block: Prepare)
    requires p.Valid()
    ensures var (q, status) := Prepared(p, c, block);
            && (status == NoResources <==> p.Empty? && block.Empty?)
            && (status == InvalidOffset <==> p.Prepare? && c.offset > 1024)
            && (status == InvalidAttrLen <==> p.Prepare? && c.offset <= 1024 && c.offset + |c.value| > 1024)
            && (status != Ok ==> q == p)
            && (status == Ok && p.Prepare? ==>
                  && q.Prepare? && q.handle == p.handle && q.len == p.len + |c.value|
                  && q.buf == p.buf[..c.offset] + c.value + p.buf[c.offset + |c.value|..])
  {
    var (q, status) := Prepared(p, c, block);
    if status == Ok && p.Prepare? {
      assert q.buf == p.buf[..c.offset] + c.value + p.buf[c.offset + |c.value|..];
    }
  }

  /** The payload an executed buffer stands for.  No more of it than a record is ever looked at, and
      nothing beyond the buffer's end. */
  function Executed(p: Prepare): seq<byte>
    requires p.Valid() && p.Prepare?
  {
    p.buf[..if p.len <= PREPARE_BUF_MAX_SIZE then p.len else PREPARE_BUF_MAX_SIZE]
  }

  lemma PayloadBytes(payload: seq<byte>)
    ensures forall i :: 0 <= i < EEPROM_SIZE ==> PayloadImage(payload)[i] == if i < |payload| then payload[i] else 0
  {
  }

  /** What all three ways in do is what the application's two steps do to the unit task: whatever record
      and request bits a write of at least 241 bytes leaves, they are those after Copy and Raise.  A
      shorter payload is no step at all. */
  lemma WriteIsTwoSteps(t: Task, payload: seq<byte>, image: Image)
    requires |payload| >= 241 ==> forall i :: 0 <= i < EEPROM_SIZE ==> image[i] == if i < |payload| then payload[i] else 0
    ensures |payload| >= 241 ==>
              AppDoes(AppDoes(t, Copy(payload)), Raise)
              == t.(mirror := image,
                    jobs := t.jobs + {WriteJob(Info), WriteJob(SettingPar), WriteJob(SetTemp), WriteJob(DayProg), WriteJob(HWSetting)})
    ensures |payload| < 241 ==> AppDoes(t, Copy(payload)) == t
  {
    if |payload| >= 241 {
      PayloadBytes(payload);
      assert image == PayloadImage(payload);
    }
  }

  class BleServer {
    const shared: Shared
    const eepromHandle: nat
    var prepare: Prepare

    ghost predicate Valid()
      reads this, shared, shared.eeprom
    {
      prepare.Valid() && shared.Valid()
    }

    constructor (shared: Shared, eepromHandle: nat)
      requires shared.Valid()
      ensures Valid() && prepare == Empty && this.shared == shared && this.eepromHandle == eepromHandle
    {
      this.shared, this.eepromHandle, prepare := shared, eepromHandle, Empty;
    }

    /** A direct write to the EEPROM characteristic: the copy, then the bits.  A payload of 241 bytes or
        more is the record, cut at its end or followed by zeros, and all five writes are asked for; a
        shorter one changes nothing. */
    method WriteEeprom(value: seq<byte>)
      requires Valid()
      modifies shared, shared.eeprom
      ensures Valid() && shared.landing == old(shared.landing)
      ensures |value| < 241 ==> shared.image == old(shared.image) && shared.jobs == old(shared.jobs)
      ensures |value| >= 241 ==>
                && (forall i :: 0 <= i < EEPROM_SIZE ==> shared.image[i] == if i < |value| then value[i] else 0)
                && shared.jobs == old(shared.jobs)
                   + {WriteJob(Info), WriteJob(SettingPar), WriteJob(SetTemp), WriteJob(DayProg), WriteJob(HWSetting)}
    {
      PayloadBytes(value);
      var accepted := shared.ApplyEepromPayload(value);
      if accepted {
        shared.ScheduleFullEepromWrite();
      }
    }

    /** An MQTT message on an EEPROM topic: the same two, and a report if the payload is too short. */
    method MqttEeprom(data: seq<byte>) returns (valid: bool)
      requires Valid()
      modifies shared, shared.eeprom
      ensures Valid() && shared.landing == old(shared.landing) && (valid <==> |data| >= 241)
      ensures !valid ==> shared.image == old(shared.image) && shared.jobs == old(shared.jobs)
      ensures valid ==>
                && (forall i :: 0 <= i < EEPROM_SIZE ==> shared.image[i] == if i < |data| then data[i] else 0)
                && shared.jobs == old(shared.jobs)
                   + {WriteJob(Info), WriteJob(SettingPar), WriteJob(SetTemp), WriteJob(DayProg), WriteJob(HWSetting)}
    {
      PayloadBytes(data);
      valid := shared.ApplyEepromPayload(data);
      if !valid {
        return;
      }
      shared.ScheduleFullEepromWrite();
    }

    method PrepareWrite(c: Chunk, block: Prepare) returns (status: Status)
      requires Valid() && block.Valid()
      modifies this`prepare
      ensures Valid() && (prepare, status) == Prepared(old(prepare), c, block)
    {
      status := Ok;
      if prepare.Empty? {
        if block.Empty? {
          status := NoResources;
        } else {
          prepare := Prepare(block.buf, 0, c.handle);
        }
      } else if c.offset > PREPARE_BUF_MAX_SIZE {
        status := InvalidOffset;
      } else if c.offset + |c.value| > PREPARE_BUF_MAX_SIZE {
        status := InvalidAttrLen;
      }
      if status != Ok {
        return;
      }
      prepare := prepare.(buf := Copied(prepare.buf, c.offset, c.value), len := prepare.len + |c.value|);
    }

    /** Execute or cancel; either way the buffer is given back. */
    method ExecWrite(execute: bool)
      requires Valid()
      modifies this`prepare, shared, shared.eeprom
      ensures Valid() && prepare == Empty && shared.landing == old(shared.landing)
      ensures var taken := execute && old(prepare).Prepare? && old(prepare).handle == eepromHandle && |Executed(old(prepare))| >= 241;
              if taken then
                && (forall i :: 0 <= i < EEPROM_SIZE ==>
                      shared.image[i] == if i < |Executed(old(prepare))| then Executed(old(prepare))[i] else 0)
                && shared.jobs == old(shared.jobs)
                   + {WriteJob(Info), WriteJob(SettingPar), WriteJob(SetTemp), WriteJob(DayProg), WriteJob(HWSetting)}
              else shared.image == old(shared.image) && shared.jobs == old(shared.jobs)
    {
      if execute && prepare.Prepare? && prepare.handle == eepromHandle {
        WriteEeprom(Executed(prepare));
      }
      prepare := Empty;
    }
  }

  // ---- Splitting a payload --------------------------------------------------

  /** Piece c is a part of the payload. */
  predicate PieceOf(c: Chunk, payload: seq<byte>) {
    c.offset + |c.value| <= |payload| && c.value == payload[c.offset..c.offset + |c.value|]
  }

  predicate InPiece(i: int, c: Chunk) {
    c.offset <= i < c.offset + |c.value|
  }

  predicate Hit(i: int, cs: seq<Chunk>) {
    exists c :: c in cs && InPiece(i, c)
  }

  function TotalLength(cs: seq<Chunk>): nat {
    if cs == [] then 0 else TotalLength(cs[..|cs| - 1]) + |cs[|cs| - 1].value|
  }

  lemma HitBefore(i: int, cs: seq<Chunk>)
    requires cs != []
    ensures Hit(i, cs) <==> Hit(i, cs[..|cs| - 1]) || InPiece(i, cs[|cs| - 1])
  {
    if Hit(i, cs) {
      var c :| c in cs && InPiece(i, c);
      assert c in cs[..|cs| - 1] || c == cs[|cs| - 1];
    }
  }

  /** After any pieces of one payload, in any order, the buffer shows the payload wherever a piece
      fell. */
  lemma {:induction false} PiecesLand(payload: seq<byte>, cs: seq<Chunk>, block: Prepare)
    requires |payload| <= PREPARE_BUF_MAX_SIZE && block.Prepare? && block.Valid() && cs != []
    requires forall c :: c in cs ==> PieceOf(c, payload)
    ensures var p := PreparedAll(cs, block);
            && p.Prepare? && p.Valid() && p.handle == cs[0].handle && p.len == TotalLength(cs)
            && forall i :: 0 <= i < |payload| && Hit(i, cs) ==> p.buf[i] == payload[i]
    decreases |cs|
  {
    var last := |cs| - 1;
    assert PieceOf(cs[last], payload);
    var p := PreparedAll(cs, block);
    if last > 0 {
      PiecesLand(payload, cs[..last], block);
      var before := PreparedAll(cs[..last], block);
      assert p == Prepared(before, cs[last], block).0;
      forall i | 0 <= i < |payload| && Hit(i, cs)
        ensures p.buf[i] == payload[i]
      {
        HitBefore(i, cs);
      }
    } else {
      assert PreparedAll(cs[..0], block) == Empty;
    }
  }

  /** A split: pieces of the payload that between them hit every byte of it, without overlap. */
  predicate Splits(cs: seq<Chunk>, payload: seq<byte>) {
    && (forall c :: c in cs ==> PieceOf(c, payload))
    && (forall i :: 0 <= i < |payload| ==> Hit(i, cs))
    && TotalLength(cs) == |payload|
  }

  /** Pieces for other attributes are laid into the same buffer: whatever handles the later pieces name,
      and whether or not they were accepted, the buffer is the record's exactly if the first piece is. */
  lemma {:induction false} FirstHandleCounts(cs: seq<Chunk>, block: Prepare)
    requires block.Prepare? && cs != []
    ensures PreparedAll(cs, block).Prepare? && PreparedAll(cs, block).handle == cs[0].handle
    decreases |cs|
  {
    var last := |cs| - 1;
    if last > 0 {
      FirstHandleCounts(cs[..last], block);
    } else {
      assert PreparedAll(cs[..0], block) == Empty;
    }
  }

  /** Whatever malloc's block held, executing a queued write of any split, in any order, is one direct
      write of the whole payload. */
  lemma QueuedIsDirect(payload: seq<byte>, cs: seq<Chunk>, block: Prepare)
    requires |payload| <= PREPARE_BUF_MAX_SIZE && block.Prepare? && block.Valid() && cs != [] && Splits(cs, payload)
    ensures var p := PreparedAll(cs, block);
            p.Prepare? && p.Valid() && p.handle == cs[0].handle && Executed(p) == payload
  {
    PiecesLand(payload, cs, block);
    var p := PreparedAll(cs, block);
    forall i | 0 <= i < |payload|
      ensures p.buf[i] == payload[i]
    {
      assert Hit(i, cs);
    }
  }

  /** The pieces of an in-order transfer: each starts where the one before it ended. */
  function InOrder(handle: nat, values: seq<seq<byte>>, from: nat): seq<Chunk> {
    if values == [] then [] else [Chunk(handle, from, values[0])] + InOrder(handle, values[1..], from + |values[0]|)
  }

  function Concat(values: seq<seq<byte>>): seq<byte> {
    if values == [] then [] else values[0] + Concat(values[1..])
  }

  lemma {:induction false} TotalOfSplit(c: Chunk, cs: seq<Chunk>)
    ensures TotalLength([c] + cs) == |c.value| + TotalLength(cs)
  {
    if cs == [] {
      assert [c] + cs == [c];
      assert [c][..0] == [];
      assert TotalLength([c][..0]) == 0;
    } else {
      assert ([c] + cs)[..|cs|] == [c] + cs[..|cs| - 1];
      TotalOfSplit(c, cs[..|cs| - 1]);
    }
  }

  lemma {:induction false} InOrderPieces(payload: seq<byte>, handle: nat, values: seq<seq<byte>>, from: nat)
    requires from <= |payload| && payload[from..] == Concat(values)
    ensures forall c :: c in InOrder(handle, values, from) ==> PieceOf(c, payload)
    ensures forall i :: from <= i < |payload| ==> Hit(i, InOrder(handle, values, from))
    ensures TotalLength(InOrder(handle, values, from)) == |payload| - from
  {
    if values != [] {
      var first, next := Chunk(handle, from, values[0]), from + |values[0]|;
      assert payload[from..] == values[0] + Concat(values[1..]);
      assert payload[from..next] == payload[from..][..|values[0]|] == values[0];
      assert payload[next..] == payload[from..][|values[0]|..] == Concat(values[1..]);
      InOrderPieces(payload, handle, values[1..], next);
      TotalOfSplit(first, InOrder(handle, values[1..], next));
      forall i | from <= i < |payload|
        ensures Hit(i, InOrder(handle, values, from))
      {
        if i < next {
          assert InPiece(i, first);
        } else {
          assert Hit(i, InOrder(handle, values[1..], next));
        }
      }
    }
  }

  /** Cutting a payload into consecutive pieces and sending them in order is such a split. */
  lemma InOrderSplits(handle: nat, values: seq<seq<byte>>)
    ensures Splits(InOrder(handle, values, 0), Concat(values))
  {
    assert Concat(values)[0..] == Concat(values);
    InOrderPieces(Concat(values), handle, values, 0);
  }
}
