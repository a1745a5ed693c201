/** The receive path as values: the one-burst cache the UART task overwrites,
    the claim the reader holds on it, and Read_Message, which sees every burst
    twice before draining it.  All state changes are written here as functions;
    the class in Receiver.dfy performs them in place. */
module Mailbox {
  import opened Layout
  import opened Frame

  datatype Rx = Rx(
    cache: seq<byte>,    // s_rx_cache, overwritten by every UART_DATA event
    available: nat,      // s_rx_available, bytes in the cache nobody claimed yet
    live: bool,          // s_rx_ptr != NULL (it can only point at the cache)
    claimLen: nat,       // s_rx_claim_len
    claimPos: nat,       // s_rx_claim_pos
    tail: nat,           // rx_buf_tail, the count seen by the previous call
    buf: seq<byte>,      // buff_ser1
    received: nat,       // Numbytes_Received
    boot: bool,          // Bootloader_Mode
    ack: bool)           // Ack_Received

  const POWER_ON := Rx(Blank(), 0, false, 0, 0, 0, Blank(), 0, false, false)

  predicate Sized(rx: Rx) {
    |rx.cache| == BUFFER && |rx.buf| == BUFFER && rx.available <= BUFFER && rx.claimLen <= BUFFER
  }

  /** What holds between any two calls of the reader. */
  predicate Sound(rx: Rx) {
    && Sized(rx)
    && rx.claimPos == 0
    && (rx.live <==> rx.claimLen > 0)
    && (rx.tail == rx.claimLen || (rx.tail == 0 && rx.claimLen in {0, BUFFER}))
  }

  /** UART_DATA: at most 128 bytes are kept, whatever was in the cache is gone. */
  function Arrive(rx: Rx, event: seq<byte>): (r: Rx)
    requires Sized(rx)
    ensures Sized(r)
  {
    var kept := event[..if |event| > BUFFER then BUFFER else |event|];
    rx.(available := |kept|, cache := Padded(kept))
  }

  /** Serial_available, including the claim it takes when none is held. */
  function Available(rx: Rx): (Rx, nat) {
    if rx.claimPos < rx.claimLen then (rx, rx.claimLen - rx.claimPos)
    else (rx.(live := rx.live || rx.available > 0, claimLen := rx.available, claimPos := 0, available := 0), rx.available)
  }

  /** Serial_read: the next claimed byte, releasing the claim with the last one. */
  function NextByte(rx: Rx): (Rx, byte)
    requires Sized(rx)
  {
    if rx.live && rx.claimPos < rx.claimLen then
      var data := rx.cache[rx.claimPos];
      if rx.claimPos + 1 >= rx.claimLen then (rx.(live := false, claimLen := 0, claimPos := 0), data)
      else (rx.(claimPos := rx.claimPos + 1), data)
    else (rx, 0)
  }

  /** Bursts that arrive while a message is being drained: arrivals[i] preempts the reader just
      before it takes byte i. */
  type Arrivals = map<nat, seq<byte>>

  function Interrupt(rx: Rx, i: nat, arrivals: Arrivals): (r: Rx)
    requires Sized(rx)
    ensures Sized(r)
  {
    if i in arrivals then Arrive(rx, arrivals[i]) else rx
  }

  function DrainFrom(rx: Rx, i: nat, len: nat, arrivals: Arrivals): (r: Rx)
    requires Sized(rx) && i <= len < BUFFER
    ensures Sized(r)
    decreases len - i
  {
    if i == len then rx
    else
      var (r, b) := NextByte(Interrupt(rx, i, arrivals));
      DrainFrom(r.(buf := r.buf[i := b]), i + 1, len, arrivals)
  }

  /** The second look at a burst: drain it, then judge it. */
  function Drain(rx: Rx, arrivals: Arrivals): (r: (Rx, int))
    requires Sized(rx)
    ensures Sized(r.0)
  {
    var len := rx.tail % BUFFER;
    var r := DrainFrom(rx.(tail := 0, buf := Blank()), 0, len, arrivals).(received := len);
    if Contains(CString(r.buf), BOOTLOADER) then (r.(boot := true), len)
    else if Contains(CString(r.buf), ACK) then (r.(ack := true), len)
    else (r, Verify(r.buf, len))
  }

  function ReadMessage(rx: Rx, arrivals: Arrivals): (r: (Rx, int))
    requires Sized(rx)
    ensures Sized(r.0)
  {
    var (r, n) := Available(rx);
    if n != 0 && n != r.tail then (r.(tail := n), RUN_DOWNLOAD)
    else if n == 0 && r.tail == 0 then (r, BUFFER_RX_EMPTY)
    else Drain(r, arrivals)
  }

  // ---- Draining -------------------------------------------------------------

  /** The cache as the reader finds it at byte j, when it started at byte i. */
  function CacheAt(cache: seq<byte>, i: nat, j: nat, arrivals: Arrivals): (c: seq<byte>)
    requires |cache| == BUFFER && i <= j
    ensures |c| == BUFFER
    decreases j - i
  {
    var now := if i in arrivals then Padded(arrivals[i][..if |arrivals[i]| > BUFFER then BUFFER else |arrivals[i]|]) else cache;
    if i == j then now else CacheAt(now, i + 1, j, arrivals)
  }

  /** Whatever arrives meanwhile, draining ends with the claim released and touches nothing else
      but the message buffer and what the arrivals themselves change. */
  lemma {:induction false} DrainedClaim(rx: Rx, i: nat, len: nat, arrivals: Arrivals)
    requires Sized(rx) && rx.live && i < len < BUFFER && rx.claimPos == i && rx.claimLen == len
    ensures var r := DrainFrom(rx, i, len, arrivals);
            && !r.live && r.claimLen == 0 && r.claimPos == 0
            && r.tail == rx.tail && r.boot == rx.boot && r.ack == rx.ack && r.received == rx.received
            && (forall j :: 0 <= j < i || len <= j < BUFFER ==> r.buf[j] == rx.buf[j])
    decreases len - i
  {
    var (r, b) := NextByte(Interrupt(rx, i, arrivals));
    var next := r.(buf := r.buf[i := b]);
    if i + 1 < len {
      DrainedClaim(next, i + 1, len, arrivals);
    }
  }

  /** Byte j of the message is the one the cache held when the reader got to j: a burst that
      arrives during a drain mixes into it. */
  lemma {:induction false} DrainedBytes(rx: Rx, i: nat, j: nat, len: nat, arrivals: Arrivals)
    requires Sized(rx) && rx.live && i <= j < len < BUFFER && rx.claimPos == i && rx.claimLen == len
    ensures DrainFrom(rx, i, len, arrivals).buf[j] == CacheAt(rx.cache, i, j, arrivals)[j]
    decreases len - i
  {
    var (r, b) := NextByte(Interrupt(rx, i, arrivals));
    var next := r.(buf := r.buf[i := b]);
    if i < j {
      DrainedBytes(next, i + 1, j, len, arrivals);
    } else if i + 1 < len {
      DrainedClaim(next, i + 1, len, arrivals);
    }
  }

  lemma {:induction false} UndisturbedCache(cache: seq<byte>, i: nat, j: nat)
    requires |cache| == BUFFER && i <= j
    ensures CacheAt(cache, i, j, map[]) == cache
    decreases j - i
  {
    if i < j {
      UndisturbedCache(cache, i + 1, j);
    }
  }

  lemma {:induction false} UndisturbedDrain(rx: Rx, i: nat, len: nat)
    requires Sized(rx) && i <= len < BUFFER
    ensures var r := DrainFrom(rx, i, len, map[]); r.cache == rx.cache && r.available == rx.available
    decreases len - i
  {
    if i < len {
      var (r, b) := NextByte(rx);
      UndisturbedDrain(r.(buf := r.buf[i := b]), i + 1, len);
    }
  }

  // ---- Invariant ------------------------------------------------------------

  lemma ArriveIsSound(rx: Rx, event: seq<byte>)
    requires Sound(rx)
    ensures Sound(Arrive(rx, event))
  {
  }

  lemma EmptyDrain(rx: Rx, arrivals: Arrivals)
    requires Sized(rx)
    ensures DrainFrom(rx, 0, 0, arrivals) == rx
  {
  }

  /** Nothing ever reads as a token or a frame in a buffer of zeros. */
  lemma ZerosAreNoMessage(buf: seq<byte>)
    requires |buf| == BUFFER && buf[0] == 0
    ensures CString(buf) == [] && !HasToken(buf) && Verify(buf, 0) == ERROR_HEAD_MESSAGE
  {
  }

  /** Draining a claim keeps the invariant, its result fits an int8_t, and a burst that contains
      "ACK" is at least three bytes long. */
  lemma DrainIsSound(rx: Rx, arrivals: Arrivals)
    requires Sound(rx) && rx.claimLen == rx.tail > 0
    ensures var (r, code) := Drain(rx, arrivals);
            && Sound(r) && -3 <= code <= 127
            && (r.ack && !rx.ack ==> code >= |ACK| && r.boot == rx.boot)
            && (rx.ack ==> r.ack) && (rx.boot ==> r.boot)
  {
    var len := rx.tail % BUFFER;
    var r := DownloadIsSound(rx, arrivals);
    CStringStops(r.buf, len);
  }

  /** The download alone: the claim is given back, or jammed. */
  lemma DownloadIsSound(rx: Rx, arrivals: Arrivals) returns (r: Rx)
    requires Sound(rx) && rx.claimLen == rx.tail > 0
    ensures var len := rx.tail % BUFFER;
            && r == DrainFrom(rx.(tail := 0, buf := Blank()), 0, len, arrivals)
            && Sound(r.(received := len)) && r.boot == rx.boot && r.ack == rx.ack && r.buf[len] == 0
  {
    var len := rx.tail % BUFFER;
    var start := rx.(tail := 0, buf := Blank());
    r := DrainFrom(start, 0, len, arrivals);
    if len > 0 {
      DrainedClaim(start, 0, len, arrivals);
    } else {
      EmptyDrain(start, arrivals);
    }
  }

  /** Read_Message keeps the invariant whatever arrives while it drains. */
  lemma ReadIsSound(rx: Rx, arrivals: Arrivals)
    requires Sound(rx)
    ensures var (r, code) := ReadMessage(rx, arrivals);
            && Sound(r) && -3 <= code <= 127
            && (r.ack && !rx.ack ==> code >= |ACK| && r.boot == rx.boot)
            && (rx.ack ==> r.ack) && (rx.boot ==> r.boot)
  {
    var (r, n) := Available(rx);
    if n != 0 && n == r.tail {
      DrainIsSound(r, arrivals);
    }
  }

  datatype Event = Burst(bytes: seq<byte>) | Call(during: Arrivals)

  function After(rx: Rx, e: Event): Rx
    requires Sized(rx)
  {
    match e
    case Burst(bytes) => Arrive(rx, bytes)
    case Call(during) => ReadMessage(rx, during).0
  }

  /** The receiver after a whole history of UART events and reader calls. */
  function Replay(rx: Rx, history: seq<Event>): (r: Rx)
    requires Sound(rx)
    ensures Sound(r)
    decreases |history|
  {
    if history == [] then rx
    else
      var last := |history| - 1;
      var before := Replay(rx, history[..last]);
      assert Sound(After(before, history[last])) by {
        if history[last].Call? { ReadIsSound(before, history[last].during); }
      }
      After(before, history[last])
  }

  // ---- What a burst becomes -------------------------------------------------

  predicate Idle(rx: Rx) {
    Sound(rx) && rx.claimLen == 0 && rx.available == 0 && rx.tail == 0
  }

  /** A burst waiting in the cache, not yet looked at. */
  predicate Waiting(rx: Rx, burst: seq<byte>) {
    && Sound(rx) && 0 < |burst| < BUFFER
    && rx.claimLen == 0 && rx.tail == 0 && rx.available == |burst| && rx.cache == Padded(burst)
  }

  /** The same burst after the first call. */
  predicate Claimed(rx: Rx, burst: seq<byte>) {
    && Sound(rx) && 0 < |burst| < BUFFER
    && rx.claimLen == |burst| && rx.tail == |burst| && rx.available == 0 && rx.cache == Padded(burst)
  }

  lemma ReadIdle(rx: Rx, arrivals: Arrivals)
    requires Idle(rx)
    ensures ReadMessage(rx, arrivals).1 == BUFFER_RX_EMPTY
    ensures Idle(ReadMessage(rx, arrivals).0)
    ensures ReadMessage(rx, arrivals).0.buf == rx.buf
    ensures ReadMessage(rx, arrivals).0.boot == rx.boot && ReadMessage(rx, arrivals).0.ack == rx.ack
  {
  }

  lemma ArriveIdle(rx: Rx, burst: seq<byte>)
    requires Idle(rx) && 0 < |burst| < BUFFER
    ensures Waiting(Arrive(rx, burst), burst)
    ensures Arrive(rx, burst).buf == rx.buf
  {
    assert burst[..|burst|] == burst;
  }

  lemma ReadWaiting(rx: Rx, burst: seq<byte>)
    requires Waiting(rx, burst)
    ensures ReadMessage(rx, map[]).1 == RUN_DOWNLOAD
    ensures Claimed(ReadMessage(rx, map[]).0, burst)
    ensures ReadMessage(rx, map[]).0.buf == rx.buf
    ensures ReadMessage(rx, map[]).0.boot == rx.boot && ReadMessage(rx, map[]).0.ack == rx.ack
  {
  }

  /** An undisturbed drain takes the first bytes of the cache and gives up the claim. */
  lemma CleanDrain(rx: Rx, len: nat)
    requires Sized(rx) && rx.live && rx.claimPos == 0 && rx.claimLen == len && 0 < len < BUFFER && rx.buf == Blank()
    ensures DrainFrom(rx, 0, len, map[]) == rx.(live := false, claimLen := 0, buf := Padded(rx.cache[..len]))
  {
    DrainedClaim(rx, 0, len, map[]);
    UndisturbedDrain(rx, 0, len);
    var r := DrainFrom(rx, 0, len, map[]);
    forall j | 0 <= j < len
      ensures r.buf[j] == rx.cache[j]
    {
      DrainedBytes(rx, 0, j, len, map[]);
      UndisturbedCache(rx.cache, 0, j);
    }
    assert r.buf == Padded(rx.cache[..len]);
  }

  /** A drained "Bootloader" raises its flag; an "ACK" raises its own, unless that was there too. */
  predicate FlagsAfter(rx: Rx, r: Rx) {
    && r.boot == (rx.boot || Contains(CString(r.buf), BOOTLOADER))
    && r.ack == (rx.ack || (Contains(CString(r.buf), ACK) && !Contains(CString(r.buf), BOOTLOADER)))
  }

  /** The second call on a claim nothing disturbs while it is drained. */
  lemma ReadDrains(rx: Rx)
    requires Sound(rx) && 0 < rx.claimLen == rx.tail < BUFFER
    ensures var (r, code) := ReadMessage(rx, map[]);
            && r.cache == rx.cache && r.available == rx.available
            && !r.live && r.claimLen == 0 && r.claimPos == 0 && r.tail == 0
            && r.buf == Padded(rx.cache[..rx.tail]) && code == Judge(r.buf, rx.tail)
            && FlagsAfter(rx, r)
  {
    CleanDrain(rx.(tail := 0, buf := Blank()), rx.tail);
  }

  lemma ReadClaimed(rx: Rx, burst: seq<byte>)
    requires Claimed(rx, burst)
    ensures var (r, code) := ReadMessage(rx, map[]);
            && Idle(r) && r.buf == Padded(burst)
            && code == Judge(Padded(burst), |burst|)
            && FlagsAfter(rx, r)
            && (!HasToken(Padded(burst)) ==> r.boot == rx.boot && r.ack == rx.ack)
  {
    assert rx.cache[..|burst|] == burst;
    ReadDrains(rx);
  }

  /** A burst of 1..127 bytes takes exactly two calls: the first says "in progress", the second
      delivers precisely its bytes and leaves the receiver idle. */
  lemma DrainedInTwoCalls(rx: Rx, burst: seq<byte>)
    requires Idle(rx) && 0 < |burst| < BUFFER
    ensures var (r1, first) := ReadMessage(Arrive(rx, burst), map[]);
            var (r2, second) := ReadMessage(r1, map[]);
            && first == RUN_DOWNLOAD
            && second == Judge(Padded(burst), |burst|)
            && r2.buf == Padded(burst) && Idle(r2) && FlagsAfter(rx, r2)
            && (!HasToken(Padded(burst)) ==> r2.boot == rx.boot && r2.ack == rx.ack)
  {
    ArriveIdle(rx, burst);
    ReadWaiting(Arrive(rx, burst), burst);
    ReadClaimed(ReadMessage(Arrive(rx, burst), map[]).0, burst);
  }

  /** The single slot: a second burst that arrives between the two calls replaces the first one.
      The reader then gets the new burst cut to the old length, and once more in full later. */
  lemma SecondBurstWins(rx: Rx, burst: seq<byte>, late: seq<byte>)
    requires Claimed(rx, burst) && 0 < |late| < BUFFER
    ensures var (r, code) := ReadMessage(Arrive(rx, late), map[]);
            && r.buf == Padded(Padded(late)[..|burst|])
            && Waiting(r, late)
  {
    assert late[..|late|] == late;
    ReadDrains(Arrive(rx, late));
  }

  // ---- Frames end to end ----------------------------------------------------

  /** Sending a sealed buffer and receiving it gives back the same bytes, zero-padded, with result
      p + 2, exactly for checksum positions 3..125. */
  lemma FrameRoundTrip(rx: Rx, b: seq<byte>)
    requires Idle(rx) && |b| == BUFFER && b[POS_CRC_LO] <= 126
    ensures var wire := Transmitted(b);
            var (r1, first) := ReadMessage(Arrive(rx, wire), map[]);
            var (r2, second) := ReadMessage(r1, map[]);
            && (second > 0 <==> 3 <= b[POS_CRC_LO] <= 125)
            && (second > 0 ==> first == RUN_DOWNLOAD && second == b[POS_CRC_LO] + 2 <= 127 && r2.buf == Padded(wire))
            && (second > 0 && !HasToken(Padded(wire)) ==> r2.boot == rx.boot && r2.ack == rx.ack)
  {
    var wire := Transmitted(b);
    if wire == [] {
      assert b[POS_CRC_LO] == 126;
      EmptyBurst(rx);
    } else {
      DrainedInTwoCalls(rx, wire);
      WireJudged(b);
    }
  }

  lemma EmptyBurst(rx: Rx)
    requires Idle(rx)
    ensures var (r1, first) := ReadMessage(Arrive(rx, []), map[]); first == ReadMessage(r1, map[]).1 == BUFFER_RX_EMPTY
  {
    assert Idle(Arrive(rx, []));
    ReadIdle(Arrive(rx, []), map[]);
    ReadIdle(ReadMessage(Arrive(rx, []), map[]).0, map[]);
  }

  /** The receive checks on what was transmitted. */
  lemma WireJudged(b: seq<byte>)
    requires |b| == BUFFER && b[POS_CRC_LO] <= 126 && Transmitted(b) != []
    ensures var code := Judge(Padded(Transmitted(b)), |Transmitted(b)|);
            && (code > 0 <==> 3 <= b[POS_CRC_LO] <= 125)
            && (code > 0 ==> code == b[POS_CRC_LO] + 2 <= 127)
  {
    if b[POS_CRC_LO] >= 3 {
      SealedIsFrame(b);
      VerifyAcceptsFrames(Transmitted(b));
    } else {
      StumpsAreRejected(b);
    }
  }

  /** A checksum position inside the header spoils the header: nothing decodes. */
  lemma StumpsAreRejected(b: seq<byte>)
    requires |b| == BUFFER && b[POS_CRC_LO] <= 2
    ensures Judge(Padded(Transmitted(b)), |Transmitted(b)|) < 0
  {
    var wire := Transmitted(b);
    var p: nat := b[POS_CRC_LO];
    var h := b[0 := START_MSG_0][1 := START_MSG_1];
    assert |wire| == p + 2 <= 4;
    assert p >= 1 ==> wire[0] == START_MSG_0;
    assert p == 2 ==> wire[1] == START_MSG_1;
    if p == 0 {
      assert h[..0] == [];
      assert Cksum(h[..0]) == 0xFFFF;
    } else if p == 1 {
      assert h[..1] == [START_MSG_0];
      assert h[..1][..0] == [];
      assert Sum(h[..1]) == Sum(h[..1][..0]) + 115;
    }
    var s := CString(Padded(wire));
    assert |s| <= |wire| by {
      CStringStops(Padded(wire), |wire|);
    }
    NoAck(s);
  }

  lemma NoAck(s: seq<byte>)
    requires forall i :: 0 <= i < |s| - 2 ==> s[i] != 65 || s[i + 1] != 67
    ensures !Contains(s, ACK)
  {
    forall i | 0 <= i <= |s| - |ACK|
      ensures !At(s, ACK, i)
    {
      assert s[i..i + 3][0] == s[i] && s[i..i + 3][1] == s[i + 1];
    }
  }

  /** A text without zeros reads back from the zero-padded buffer as itself. */
  lemma {:induction false} CStringOf(s: seq<byte>, rest: seq<byte>)
    requires (forall i :: 0 <= i < |s| ==> s[i] != 0) && rest != [] && rest[0] == 0
    ensures CString(s + rest) == s
  {
    if s == [] {
      assert s + rest == rest;
    } else {
      assert (s + rest)[1..] == s[1..] + rest;
      CStringOf(s[1..], rest);
    }
  }

  /** The bootloader's two messages are recognised. */
  lemma TokensRead()
    ensures Contains(CString(Padded(BOOTLOADER)), BOOTLOADER) && HasToken(Padded(BOOTLOADER))
    ensures Contains(CString(Padded(ACK)), ACK) && !Contains(CString(Padded(ACK)), BOOTLOADER) && HasToken(Padded(ACK))
  {
    CStringOf(BOOTLOADER, seq(BUFFER - |BOOTLOADER|, _ => 0));
    CStringOf(ACK, seq(BUFFER - |ACK|, _ => 0));
    assert At(BOOTLOADER, BOOTLOADER, 0) && At(ACK, ACK, 0);
  }

  lemma {:induction false} CStringStops(b: seq<byte>, i: nat)
    requires i < |b| && b[i] == 0
    ensures |CString(b)| <= i
  {
    if i > 0 && b[0] != 0 {
      CStringStops(b[1..], i - 1);
    }
  }

  /** A frame with one byte changed in transit is reported as an error by the second call, unless
      the damaged burst reads as containing a token. */
  lemma CorruptionReported(rx: Rx, f: seq<byte>, j: nat, x: byte)
    requires Idle(rx) && IsFrame(f) && j < |f| && x != f[j]
    ensures var (r1, first) := ReadMessage(Arrive(rx, f[j := x]), map[]);
            ReadMessage(r1, map[]).1 < 0 <==> !HasToken(Padded(f[j := x]))
  {
    DrainedInTwoCalls(rx, f[j := x]);
    CorruptionDetected(f, j, x);
  }

  // ---- The full-size burst --------------------------------------------------

  predicate Jammed(rx: Rx) {
    Sound(rx) && rx.claimLen == BUFFER
  }

  lemma JamPersists(rx: Rx, e: Event)
    requires Jammed(rx)
    ensures Jammed(After(rx, e))
    ensures e.Call? ==> ReadMessage(rx, e.during).1 in {RUN_DOWNLOAD, ERROR_HEAD_MESSAGE}
  {
    if e.Call? {
      ReadIsSound(rx, e.during);
      if rx.tail == BUFFER {
        var start := rx.(tail := 0, buf := Blank());
        EmptyDrain(start, e.during);
        ZerosAreNoMessage(start.buf);
      }
    }
  }

  /** A burst of 128 bytes or more is claimed but never drained: from its first look on, no history
      whatever makes the receiver deliver a message again. */
  lemma {:induction false} FullBurstJams(rx: Rx, burst: seq<byte>, history: seq<Event>, arrivals: Arrivals)
    requires Idle(rx) && |burst| >= BUFFER
    ensures var r := Replay(rx, [Burst(burst), Call(map[])] + history);
            Jammed(r) && ReadMessage(r, arrivals).1 in {RUN_DOWNLOAD, ERROR_HEAD_MESSAGE}
    decreases |history|
  {
    var h := [Burst(burst), Call(map[])] + history;
    var last := |h| - 1;
    if history == [] {
      assert h[..1] == [Burst(burst)] && h[..1][..0] == [];
      assert Replay(rx, h[..1]) == After(Replay(rx, h[..1][..0]), h[..1][0]) == Arrive(rx, burst);
    } else {
      assert h[..last] == [Burst(burst), Call(map[])] + history[..|history| - 1];
      FullBurstJams(rx, burst, history[..|history| - 1], map[]);
      JamPersists(Replay(rx, h[..last]), h[last]);
    }
    JamPersists(Replay(rx, h), Call(arrivals));
  }
}
