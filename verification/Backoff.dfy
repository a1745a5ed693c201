/** The MQTT reconnect backoff: an exponential delay with a cap, and the gate in
    the maintenance routine that is to hold reconnects back until it is over. */
module Backoff {
  const MQTT_RECONNECT_BASE_MS: nat := 1000
  const MQTT_RECONNECT_MAX_MS: nat := 60000
  const TURN: nat := 0x1_0000_0000

  type u32 = x: int | 0 <= x < 0x1_0000_0000

  // ---- The delay ------------------------------------------------------------

  function Power2(n: nat): (p: nat)
    ensures p >= 1
  {
    if n == 0 then 1 else 2 * Power2(n - 1)
  }

  /** After f failures: the base doubled f - 1 times, at most the cap. */
  function Delay(f: nat): nat {
    var d := MQTT_RECONNECT_BASE_MS * Power2(if f > 0 then f - 1 else 0);
    if d < MQTT_RECONNECT_MAX_MS then d else MQTT_RECONNECT_MAX_MS
  }

  lemma {:induction false} Power2Grows(a: nat, b: nat)
    requires a <= b
    ensures Power2(a) <= Power2(b)
    decreases b
  {
    if a < b {
      Power2Grows(a, b - 1);
    }
  }

  /** More failures never shorten the delay. */
  lemma DelayMonotone(f: nat, g: nat)
    requires f <= g
    ensures MQTT_RECONNECT_BASE_MS <= Delay(f) <= Delay(g) <= MQTT_RECONNECT_MAX_MS
  {
    Power2Grows(if f > 0 then f - 1 else 0, if g > 0 then g - 1 else 0);
  }

  /** The shift as the code computes it, in 32 bits: the exponent is cut to 6 first, which changes
      nothing since the cap is reached there, and keeps the shift from overflowing. */
  method ComputeDelay(failures: u32) returns (delayMs: u32)
    ensures delayMs == Delay(failures)
  {
    var shift: nat := if failures > 0 then failures - 1 else 0;
    if shift > 6 {
      shift := 6;
      Power2Grows(6, failures - 1);
    }
    var shifted := MQTT_RECONNECT_BASE_MS;
    for i := 0 to shift
      invariant shifted == MQTT_RECONNECT_BASE_MS * Power2(i)
      invariant shifted < TURN
    {
      Power2Grows(i + 1, 6);
      assert Power2(6) == 64;
      shifted := shifted * 2 % TURN;
    }
    delayMs := shifted;
    if delayMs > MQTT_RECONNECT_MAX_MS {
      delayMs := MQTT_RECONNECT_MAX_MS;
    }
    assert Power2(6) == 64;
  }

  /** pdMS_TO_TICKS. */
  function Ticks(ms: nat, hz: nat): nat { ms * hz / 1000 }

  // ---- The gate -------------------------------------------------------------

  function Wrap(tick: nat): u32 { tick % TURN }

  /** The maintenance routine holds back while this is true. */
  predicate Held(next: u32, now: u32) { next != 0 && now < next }

  /** The gate keeps every moment before the deadline back exactly if the tick counter does not
      wrap before the deadline. */
  lemma GateExactly(now: nat, wait: nat)
    requires 0 < wait < TURN
    ensures (forall t :: now <= t < now + wait ==> Held(Wrap(now + wait), Wrap(t))) <==> Wrap(now) + wait < TURN
  {
    var turn := now / TURN;
    assert now == turn * TURN + Wrap(now);
    if Wrap(now) + wait < TURN {
      forall t | now <= t < now + wait
        ensures Held(Wrap(now + wait), Wrap(t))
      {
        SameTurnWraps(now, t);
        SameTurnWraps(now, now + wait);
      }
    } else {
      WrapsOnce(now, wait);
      assert !Held(Wrap(now + wait), Wrap(now));
    }
  }

  lemma SameTurnWraps(a: nat, b: nat)
    requires a <= b && Wrap(a) + (b - a) < TURN
    ensures Wrap(b) == Wrap(a) + (b - a)
  {
    Divided(b, a / TURN, Wrap(a) + (b - a));
  }

  lemma WrapsOnce(a: nat, d: nat)
    requires d < TURN && Wrap(a) + d >= TURN
    ensures Wrap(a + d) == Wrap(a) + d - TURN
  {
    Divided(a + d, a / TURN + 1, Wrap(a) + d - TURN);
  }

  lemma Divided(x: nat, q: nat, r: nat)
    requires x == q * TURN + r && r < TURN
    ensures x % TURN == r
  {
  }

  // ---- Maintenance ----------------------------------------------------------

  /** Failed starts: an invalid endpoint leaves the client as it was, any other failure stops it. */
  datatype Start = Started | InvalidEndpoint | Broken

  /** What the routine finds: Wi-Fi, a changed endpoint, and how a start or reconnect would go. */
  datatype World = World(wifi: bool, endpointChanged: bool, start: Start, hasClient: bool, reconnects: bool)

  /** deadline: the true tick until which the last failure asks to wait; history only. */
  datatype Client = Client(started: bool, online: bool, failures: nat, next: u32, deadline: nat)

  function Failed(c: Client, now: nat, hz: nat): Client {
    var wait := Ticks(Delay(c.failures + 1), hz);
    c.(failures := c.failures + 1, next := Wrap(now + wait), deadline := now + wait)
  }

  function StartClient(c: Client, w: World, now: nat, hz: nat): Client {
    match w.start
    case Started => c.(started := true, online := false)
    case InvalidEndpoint => Failed(c, now, hz)
    case Broken => Failed(c.(started := false), now, hz)
  }

  /** mqtt_connection_maintenance; the flag says whether a start, restart or reconnect was tried. */
  function Maintained(c: Client, w: World, now: nat, hz: nat): (Client, bool) {
    if !w.wifi then (c, false)
    else if !c.started then (StartClient(c, w, now, hz), true)
    else if c.online then
      if w.endpointChanged then (StartClient(c, w, now, hz), true) else (c, false)
    else if Held(c.next, Wrap(now)) then (c, false)
    else if w.endpointChanged || !w.hasClient then (StartClient(c, w, now, hz), true)
    else (if w.reconnects then c else Failed(c, now, hz), true)
  }

  datatype Event = Maintenance(now: nat, w: World) | Lost(now: nat) | Connected

  function After(c: Client, e: Event, hz: nat): Client {
    match e
    case Maintenance(now, w) => Maintained(c, w, now, hz).0
    case Lost(now) => Failed(c.(online := false), now, hz)
    case Connected => c.(online := true, failures := 0, next := 0, deadline := 0)
  }

  predicate Attempts(c: Client, e: Event, hz: nat) {
    e.Maintenance? && Maintained(c, e.w, e.now, hz).1
  }

  /** One step: an attempt happens while the gate holds exactly where the code never asks it, that is
      when the client is not started, or is online and its endpoint has changed. */
  lemma AttemptWhileHeld(c: Client, w: World, now: nat, hz: nat)
    requires w.wifi && Held(c.next, Wrap(now))
    ensures Maintained(c, w, now, hz).1 <==> !c.started || (c.online && w.endpointChanged)
  {
  }

  /** With Wi-Fi, a client that is not started always tries; one that is online only if the endpoint has
      changed; one that is offline unless the gate holds. */
  lemma TriesExactly(c: Client, w: World, now: nat, hz: nat)
    ensures Maintained(c, w, now, hz).1 <==>
            w.wifi && (!c.started || if c.online then w.endpointChanged else c.next == 0 || Wrap(now) >= c.next)
  {
  }

  /** An offline client that is started and keeps its endpoint reconnects; every other attempt is a start. */
  predicate Reconnects(c: Client, w: World) {
    c.started && !c.online && !w.endpointChanged && w.hasClient
  }

  /** How the attempt ends. */
  predicate Succeeds(c: Client, w: World) {
    if Reconnects(c, w) then w.reconnects else w.start == Started
  }

  /** An attempt that fails counts and sets the deadline, one delay for the failures so far behind now; one
      that succeeds leaves both to the broker's answer, and so does no attempt. */
  lemma AttemptOutcome(c: Client, w: World, now: nat, hz: nat)
    ensures var (d, tried) := Maintained(c, w, now, hz);
            && (tried && !Succeeds(c, w) ==>
                  && d.failures == c.failures + 1 && d.deadline == now + Ticks(Delay(c.failures + 1), hz) && d.next == Wrap(d.deadline)
                  && d.online == c.online && d.started == (c.started && (Reconnects(c, w) || w.start == InvalidEndpoint)))
            && (tried && Succeeds(c, w) ==> d == if Reconnects(c, w) then c else c.(started := true, online := false))
            && (!tried ==> d == c)
  {
  }

  /** After a failed reconnect the next attempt comes exactly when the delay is over: 1 s after the first
      failure, doubled with each further one, at most 60 s. */
  lemma RetriesExactly(c: Client, w: World, now: nat, next: World, later: nat, hz: nat)
    requires now + Ticks(MQTT_RECONNECT_MAX_MS, hz) < TURN && later < TURN && next.wifi
    requires Reconnects(c, w) && !w.reconnects && Maintained(c, w, now, hz).1
    ensures var d := Maintained(c, w, now, hz).0;
            var doubled := 1000 * Power2(c.failures);
            Maintained(d, next, later, hz).1 <==> later >= now + Ticks(if doubled < 60000 then doubled else 60000, hz)
  {
    var d := Maintained(c, w, now, hz).0;
    AttemptOutcome(c, w, now, hz);
    FailedIsGated(c, now, hz);
    TriesExactly(d, next, later, hz);
    GateOpens(d.deadline, later);
    DelayDoubles(c.failures);
  }

  lemma GateOpens(deadline: nat, later: nat)
    requires deadline < TURN && later < TURN
    ensures Wrap(deadline) == 0 || Wrap(later) >= Wrap(deadline) <==> later >= deadline
  {
  }

  lemma DelayDoubles(f: nat)
    ensures var doubled := 1000 * Power2(f); Delay(f + 1) == if doubled < 60000 then doubled else 60000
  {
  }

  /** The gate shows the deadline. */
  predicate Gated(c: Client) {
    && c.next == Wrap(c.deadline)
    && c.deadline < TURN
  }

  function Run(c: Client, events: seq<Event>, hz: nat): Client
    decreases |events|
  {
    if events == [] then c else After(Run(c, events[..|events| - 1], hz), events[|events| - 1], hz)
  }

  /** A lost connection counts as a failure too. */
  predicate Fails(c: Client, e: Event, hz: nat) {
    e.Lost? || (Attempts(c, e, hz) && !Succeeds(c, e.w))
  }

  /** The failures since the broker last answered. */
  function FailuresIn(c: Client, events: seq<Event>, hz: nat): nat
    decreases |events|
  {
    if events == [] then c.failures
    else
      var last := |events| - 1;
      if events[last].Connected? then 0
      else FailuresIn(c, events[..last], hz) + if Fails(Run(c, events[..last], hz), events[last], hz) then 1 else 0
  }

  /** The delay over whole runs: the n-th failure in a row, of whatever kind, asks for 1000 * 2^(n-1) ms, at
      most a minute; only an answer of the broker starts the count again. */
  lemma {:induction false} DelayInEveryRun(c: Client, events: seq<Event>, hz: nat)
    ensures var d := Run(c, events, hz);
            && d.failures == FailuresIn(c, events, hz)
            && (events != [] ==>
                  var last := |events| - 1;
                  var doubled := 1000 * Power2(d.failures - if d.failures > 0 then 1 else 0);
                  && (Fails(Run(c, events[..last], hz), events[last], hz) ==>
                        d.failures > 0 && d.deadline == events[last].now + Ticks(if doubled < 60000 then doubled else 60000, hz))
                  && (events[last].Connected? ==> d.online && d.next == 0 && d.deadline == 0))
    decreases |events|
  {
    if events != [] {
      var last := |events| - 1;
      var before := Run(c, events[..last], hz);
      DelayInEveryRun(c, events[..last], hz);
      match events[last]
      case Maintenance(now, w) => AttemptOutcome(before, w, now, hz);
      case Lost(now) =>
      case Connected =>
    }
  }

  /** Times of one turn of the tick counter, with room for the longest delay. */
  predicate WithinTurn(events: seq<Event>, hz: nat) {
    forall e :: e in events && !e.Connected? ==> e.now + Ticks(MQTT_RECONNECT_MAX_MS, hz) < TURN
  }

  lemma TicksMonotone(a: nat, b: nat, hz: nat)
    requires a <= b
    ensures Ticks(a, hz) <= Ticks(b, hz)
  {
    assert a * hz <= b * hz;
  }

  lemma FailedIsGated(c: Client, now: nat, hz: nat)
    requires now + Ticks(MQTT_RECONNECT_MAX_MS, hz) < TURN
    ensures Gated(Failed(c, now, hz))
  {
    DelayMonotone(c.failures + 1, c.failures + 1);
    TicksMonotone(Delay(c.failures + 1), MQTT_RECONNECT_MAX_MS, hz);
  }

  lemma {:induction false} AlwaysGated(c: Client, events: seq<Event>, hz: nat)
    requires Gated(c) && WithinTurn(events, hz)
    ensures Gated(Run(c, events, hz))
    decreases |events|
  {
    if events != [] {
      var last := |events| - 1;
      var before := Run(c, events[..last], hz);
      AlwaysGated(c, events[..last], hz);
      assert events[last] in events;
      if !events[last].Connected? {
        FailedIsGated(before, events[last].now, hz);
        FailedIsGated(before.(online := false), events[last].now, hz);
        FailedIsGated(before.(started := false), events[last].now, hz);
      }
    }
  }

  /** No reconnect or restart before the deadline: after any history within one turn of the tick
      counter, an offline client that is started tries nothing until the last failure's delay is over. */
  lemma NoEarlyAttempt(c: Client, events: seq<Event>, e: Event, hz: nat)
    requires Gated(c) && WithinTurn(events, hz) && e.Maintenance? && e.now < TURN
    requires var d := Run(c, events, hz); d.started && !d.online && Attempts(d, e, hz)
    ensures e.now >= Run(c, events, hz).deadline
  {
    AlwaysGated(c, events, hz);
    GateHolds(Run(c, events, hz), e.w, e.now, hz);
  }

  lemma GateHolds(c: Client, w: World, now: nat, hz: nat)
    requires Gated(c) && now < TURN && c.started && !c.online && Maintained(c, w, now, hz).1
    ensures now >= c.deadline
  {
    TriesExactly(c, w, now, hz);
    GateOpens(c.deadline, now);
  }
}
