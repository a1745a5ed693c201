/** The queue of Wi-Fi credentials between the tasks that enqueue (dropping the
    oldest entry when it is full) and mqtt_task, which drains it and applies
    only the latest.  Each queue call is one step, so the two sides interleave in
    every possible way; together they behave as a register that the last writer
    wins. */
module WifiQueue {
  const WIFI_REQ_QUEUE_LEN: nat := 8

  datatype Request = Request(id: nat, ssid: string, password: string)

  /** Where mqtt_enqueue_wifi_credentials is, with the request it holds. */
  datatype Producer = Idle | Numbered(r: Request) | FoundFull(r: Request) | Dropped(r: Request)

  /** Where the drain loop of mqtt_task is, with the latest request it took. */
  datatype Consumer = Waiting | Draining(latest: Request)

  datatype State = State(
    queue: seq<Request>,
    counter: nat,             // s_wifi_request_counter
    producer: Producer,
    consumer: Consumer,
    // history
    issued: seq<Request>,     // every request that got a number
    applied: seq<Request>,    // every request apply_wifi_request was called with
    refused: nat)             // second sends that failed

  datatype Step = Enqueue(ssid: string, password: string) | Produce | Consume

  const START := State([], 0, Idle, Waiting, [], [], 0)

  /** A request without SSID is rejected; any other gets the next number. */
  function Accept(s: State, ssid: string, password: string): State {
    if ssid == "" || !s.producer.Idle? then s
    else
      var r := Request(s.counter + 1, ssid, password);
      s.(counter := s.counter + 1, producer := Numbered(r), issued := s.issued + [r])
  }

  /** The producer's next queue call: send, receive the oldest, send again. */
  function Produced(s: State): State {
    match s.producer
    case Idle => s
    case Numbered(r) =>
      if |s.queue| < WIFI_REQ_QUEUE_LEN then s.(queue := s.queue + [r], producer := Idle) else s.(producer := FoundFull(r))
    case FoundFull(r) => s.(queue := if s.queue == [] then [] else s.queue[1..], producer := Dropped(r))
    case Dropped(r) =>
      if |s.queue| < WIFI_REQ_QUEUE_LEN then s.(queue := s.queue + [r], producer := Idle)
      else s.(producer := Idle, refused := s.refused + 1)
  }

  /** The consumer's next queue call; on an empty queue it applies what it holds. */
  function Consumed(s: State): State {
    if s.queue != [] then s.(queue := s.queue[1..], consumer := Draining(s.queue[0]))
    else if s.consumer.Draining? then s.(consumer := Waiting, applied := s.applied + [s.consumer.latest])
    else s
  }

  function Next(s: State, a: Step): State {
    match a
    case Enqueue(ssid, password) => Accept(s, ssid, password)
    case Produce => Produced(s)
    case Consume => Consumed(s)
  }

  function Run(steps: seq<Step>): State {
    if steps == [] then START else Next(Run(steps[..|steps| - 1]), steps[|steps| - 1])
  }

  // ---- Invariant ------------------------------------------------------------

  /** How many requests have been sent to the queue: all but the one in the producer's hands. */
  function SentCount(s: State): int {
    if s.producer.Idle? then s.counter else s.counter - 1
  }

  predicate Numbering(s: State) {
    && |s.issued| == s.counter
    && (forall i :: 0 <= i < s.counter ==> s.issued[i].id == i + 1)
    && (!s.producer.Idle? ==> s.counter > 0 && s.producer.r == s.issued[s.counter - 1])
  }

  /** The queue is the latest part of what was sent. */
  predicate Contiguous(s: State) {
    && 0 <= |s.queue| <= SentCount(s) <= |s.issued| && |s.queue| <= WIFI_REQ_QUEUE_LEN
    && s.queue == s.issued[SentCount(s) - |s.queue|..SentCount(s)]
    && (s.producer.Dropped? ==> |s.queue| < WIFI_REQ_QUEUE_LEN)
  }

  /** What the consumer has is older than what is queued, and what it applied older still. */
  predicate Ascending(s: State) {
    && SentCount(s) <= |s.issued|
    && (forall i, j :: 0 <= i < j < |s.applied| ==> s.applied[i].id < s.applied[j].id)
    && (s.consumer.Draining? ==>
          && 1 <= s.consumer.latest.id <= SentCount(s) - |s.queue| && s.consumer.latest == s.issued[s.consumer.latest.id - 1]
          && forall i :: 0 <= i < |s.applied| ==> s.applied[i].id < s.consumer.latest.id)
    && (forall i :: 0 <= i < |s.applied| ==>
          1 <= s.applied[i].id <= SentCount(s) - |s.queue| && s.applied[i] == s.issued[s.applied[i].id - 1])
  }

  /** With nothing queued, what the consumer last took is what was last sent, unless the producer has
      just dropped that and still has a newer one in hand. */
  predicate UpToDate(s: State) {
    s.queue == [] && !s.producer.Dropped? && SentCount(s) > 0 ==>
      if s.consumer.Draining? then s.consumer.latest.id == SentCount(s)
      else s.applied != [] && s.applied[|s.applied| - 1].id == SentCount(s)
  }

  predicate Inv(s: State) {
    Numbering(s) && Contiguous(s) && Ascending(s) && UpToDate(s) && s.refused == 0
  }

  lemma AcceptKeeps(s: State, ssid: string, password: string)
    requires Inv(s)
    ensures Inv(Accept(s, ssid, password))
  {
  }

  lemma ProduceKeeps(s: State)
    requires Inv(s)
    ensures Inv(Produced(s))
  {
    match s.producer
    case Idle =>
    case Numbered(r) => if |s.queue| < WIFI_REQ_QUEUE_LEN { SendKeeps(s, r); } else { FullKeeps(s, r); }
    case FoundFull(r) => DropKeeps(s, r);
    case Dropped(r) => SendKeeps(s, r);
  }

  lemma FullKeeps(s: State, r: Request)
    requires Inv(s) && s.producer == Numbered(r)
    ensures Inv(s.(producer := FoundFull(r)))
  {
  }

  /** Dropping the oldest, if the consumer has left one. */
  lemma DropKeeps(s: State, r: Request)
    requires Inv(s) && s.producer == FoundFull(r)
    ensures Inv(s.(queue := if s.queue == [] then [] else s.queue[1..], producer := Dropped(r)))
  {
  }

  /** Sending the request in hand to a queue with room. */
  lemma SendKeeps(s: State, r: Request)
    requires Inv(s) && (s.producer == Numbered(r) || s.producer == Dropped(r)) && |s.queue| < WIFI_REQ_QUEUE_LEN
    ensures Inv(s.(queue := s.queue + [r], producer := Idle))
  {
    var t := s.(queue := s.queue + [r], producer := Idle);
    OneMore(s.issued, SentCount(s) - |s.queue|, SentCount(s));
    assert Contiguous(t);
    assert Ascending(t);
  }

  lemma OneMore(s: seq<Request>, from: nat, to: nat)
    requires from <= to < |s|
    ensures s[from..to + 1] == s[from..to] + [s[to]]
  {
  }

  lemma ConsumeKeeps(s: State)
    requires Inv(s)
    ensures Inv(Consumed(s))
  {
    if s.queue != [] { TakeKeeps(s); }
    else if s.consumer.Draining? { ApplyKeeps(s); }
  }

  lemma TakeKeeps(s: State)
    requires Inv(s) && s.queue != []
    ensures Inv(s.(queue := s.queue[1..], consumer := Draining(s.queue[0])))
  {
    var t := s.(queue := s.queue[1..], consumer := Draining(s.queue[0]));
    assert s.queue[0] == s.issued[SentCount(s) - |s.queue|];
    assert Contiguous(t);
    assert Ascending(t);
  }

  lemma ApplyKeeps(s: State)
    requires Inv(s) && s.queue == [] && s.consumer.Draining?
    ensures Inv(s.(consumer := Waiting, applied := s.applied + [s.consumer.latest]))
  {
    var t := s.(consumer := Waiting, applied := s.applied + [s.consumer.latest]);
    assert Contiguous(t);
    assert Ascending(t);
  }

  lemma {:induction false} AlwaysInv(steps: seq<Step>)
    ensures Inv(Run(steps))
    decreases |steps|
  {
    if steps != [] {
      var last := |steps| - 1;
      AlwaysInv(steps[..last]);
      var s := Run(steps[..last]);
      match steps[last]
      case Enqueue(ssid, password) => AcceptKeeps(s, ssid, password);
      case Produce => ProduceKeeps(s);
      case Consume => ConsumeKeeps(s);
    }
  }

  // ---- Main results ---------------------------------------------------------

  /** Between enqueues the queued ids run without gap up to the counter, at most eight of them, and
      the send after drop-oldest has never failed. */
  lemma QueuedRun(steps: seq<Step>, i: nat)
    ensures var s := Run(steps);
            && |s.queue| <= WIFI_REQ_QUEUE_LEN && s.refused == 0
            && (s.producer.Idle? && i < |s.queue| ==> s.queue[i].id == s.counter - |s.queue| + 1 + i)
  {
    AlwaysInv(steps);
    var s := Run(steps);
    if s.producer.Idle? && i < |s.queue| {
      assert s.queue[i] == s.issued[SentCount(s) - |s.queue| + i];
    }
  }

  /** Requests are applied in the order they were issued, none twice. */
  lemma AppliedInOrder(steps: seq<Step>, i: nat, j: nat)
    requires i < j < |Run(steps).applied|
    ensures Run(steps).applied[i].id < Run(steps).applied[j].id
    ensures Run(steps).applied[i] in Run(steps).issued
  {
    AlwaysInv(steps);
  }

  /** The request the system stands for: the newest wherever it is. */
  function Register(s: State): seq<Request> {
    if !s.producer.Idle? then [s.producer.r]
    else if s.queue != [] then [s.queue[|s.queue| - 1]]
    else if s.consumer.Draining? then [s.consumer.latest]
    else if s.applied != [] then [s.applied[|s.applied| - 1]]
    else []
  }

  /** Last writer wins: under every interleaving the register holds the last accepted request, so a
      request is only ever discarded in favour of a later one, and when both sides rest the last one
      accepted is the last one applied. */
  lemma LastWriterWins(steps: seq<Step>)
    ensures var s := Run(steps);
            && Register(s) == (if s.issued == [] then [] else [s.issued[|s.issued| - 1]])
            && (s.producer.Idle? && s.queue == [] && s.consumer.Waiting? && s.issued != [] ==>
                  s.applied != [] && s.applied[|s.applied| - 1] == s.issued[|s.issued| - 1])
  {
    AlwaysInv(steps);
    RegisterIsNewest(Run(steps));
  }

  lemma RegisterIsNewest(s: State)
    requires Inv(s)
    ensures Register(s) == (if s.issued == [] then [] else [s.issued[|s.issued| - 1]])
  {
    if s.producer.Idle? && s.queue != [] {
      assert s.queue[|s.queue| - 1] == s.issued[s.counter - 1];
    }
  }

  /** The requests issued are the accepted calls, in order. */
  lemma AcceptIssues(s: State, ssid: string, password: string)
    requires Inv(s) && ssid != "" && s.producer.Idle?
    ensures Register(Accept(s, ssid, password)) == [Request(s.counter + 1, ssid, password)]
    ensures Accept(s, ssid, password).issued == s.issued + [Request(s.counter + 1, ssid, password)]
  {
  }

  /** A call without SSID, or made while another is still under way, issues nothing; every other does. */
  lemma AcceptedExactly(s: State, ssid: string, password: string)
    ensures Accept(s, ssid, password) == s <==> ssid == "" || !s.producer.Idle?
  {
  }

  /** The steps without the calls that name no network. */
  function Named(steps: seq<Step>): seq<Step> {
    if steps == [] then []
    else
      var last := steps[|steps| - 1];
      Named(steps[..|steps| - 1]) + if last.Enqueue? && last.ssid == "" then [] else [last]
  }

  /** A call with an empty SSID leaves no trace: the system runs as if it had not been made, and no request
      without SSID is ever issued. */
  lemma {:induction false} EmptySsidRefused(steps: seq<Step>)
    ensures Run(Named(steps)) == Run(steps)
    ensures forall r :: r in Run(steps).issued ==> r.ssid != ""
    decreases |steps|
  {
    if steps != [] {
      var last := |steps| - 1;
      EmptySsidRefused(steps[..last]);
      NamedStep(steps);
      IssuedNamed(Run(steps[..last]), steps[last]);
    }
  }

  lemma NamedStep(steps: seq<Step>)
    requires steps != [] && Run(Named(steps[..|steps| - 1])) == Run(steps[..|steps| - 1])
    ensures Run(Named(steps)) == Run(steps)
  {
    var last := |steps| - 1;
    var before := Named(steps[..last]);
    if steps[last].Enqueue? && steps[last].ssid == "" {
      assert Named(steps) == before + [] == before;
    } else {
      assert (before + [steps[last]])[..|before|] == before;
    }
  }

  lemma IssuedNamed(s: State, a: Step)
    requires forall r :: r in s.issued ==> r.ssid != ""
    ensures forall r :: r in Next(s, a).issued ==> r.ssid != ""
  {
  }

  /** Only a queue of eight makes the producer drop: with room the request in hand is sent at once. */
  lemma DropsOnlyWhenFull(steps: seq<Step>)
    ensures var s := Run(steps);
            s.producer.Numbered? ==>
              if |s.queue| < 8 then Produced(s) == s.(queue := s.queue + [s.producer.r], producer := Idle)
              else |s.queue| == 8 && Produced(s) == s.(producer := FoundFull(s.producer.r))
  {
    AlwaysInv(steps);
  }

  /** Steps of either side never change the register. */
  lemma StepsKeepRegister(s: State, a: Step)
    requires Inv(s) && !a.Enqueue?
    ensures Register(Next(s, a)) == Register(s)
  {
    RegisterIsNewest(s);
    if a.Produce? {
      ProduceKeeps(s);
      RegisterIsNewest(Produced(s));
    } else {
      ConsumeKeeps(s);
      RegisterIsNewest(Consumed(s));
    }
  }
}
