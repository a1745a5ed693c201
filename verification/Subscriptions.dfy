/** Which identities the device's app topics are subscribed for: always its
    hardware id, and the serial number the EEPROM mirror shows, if that is a
    meaningful one. */
module Subscriptions {
  import opened Layout

  const EEPROM_SERIAL_MAX_LEN: nat := 18

  type Text = seq<byte>

  // ---- The serial number ----------------------------------------------------

  predicate Printable(c: byte) { 32 <= c <= 126 }

  predicate Space(c: byte) { c == 32 || 9 <= c <= 13 }

  const ZERO: byte := 48

  /** The printable bytes at the start. */
  function PrintablePrefix(s: Text): (r: Text)
    ensures |r| <= |s| && r == s[..|r|]
  {
    if s == [] || !Printable(s[0]) then [] else [s[0]] + PrintablePrefix(s[1..])
  }

  function Trimmed(s: Text): (r: Text)
    ensures |r| <= |s| && r == s[..|r|]
  {
    if s != [] && Space(s[|s| - 1]) then Trimmed(s[..|s| - 1]) else s
  }

  function SerialField(m: Image): (s: Text)
    ensures |s| == EEPROM_SERIAL_MAX_LEN
  {
    m[SerialString..SerialString + EEPROM_SERIAL_MAX_LEN]
  }

  function Serial(m: Image): Text {
    Trimmed(PrintablePrefix(SerialField(m)))
  }

  /** Something other than spaces and zeros. */
  predicate Meaningful(s: Text) {
    exists i :: 0 <= i < |s| && !Space(s[i]) && s[i] != ZERO
  }

  /** The serial number to subscribe for, or none. */
  function ValidSerial(m: Image): Text {
    if Meaningful(Serial(m)) then Serial(m) else []
  }

  lemma {:induction false} PrefixStops(s: Text)
    ensures forall i :: 0 <= i < |PrintablePrefix(s)| ==> Printable(s[i])
    ensures |PrintablePrefix(s)| < |s| ==> !Printable(s[|PrintablePrefix(s)|])
  {
    if s != [] && Printable(s[0]) {
      PrefixStops(s[1..]);
    }
  }

  lemma {:induction false} TrimStops(s: Text)
    ensures Trimmed(s) != [] ==> !Space(Trimmed(s)[|Trimmed(s)| - 1])
    ensures forall i :: |Trimmed(s)| <= i < |s| ==> Space(s[i])
  {
    if s != [] && Space(s[|s| - 1]) {
      TrimStops(s[..|s| - 1]);
    }
  }

  /** The serial is the longest printable beginning of the 18 bytes, without its trailing spaces. */
  lemma SerialIs(m: Image, n: nat)
    requires n <= EEPROM_SERIAL_MAX_LEN
    requires forall i :: 0 <= i < n ==> Printable(SerialField(m)[i])
    requires n < EEPROM_SERIAL_MAX_LEN ==> !Printable(SerialField(m)[n])
    ensures var s := Serial(m);
            && |s| <= n && s == SerialField(m)[..|s|]
            && (s != [] ==> !Space(s[|s| - 1]))
            && (forall i :: |s| <= i < n ==> SerialField(m)[i] == 32)
  {
    var f := SerialField(m);
    PrefixStops(f);
    assert |PrintablePrefix(f)| == n;
    TrimStops(PrintablePrefix(f));
  }

  // ---- What is subscribed ---------------------------------------------------

  /** The client's record of its subscriptions, and the identities the broker has. */
  datatype Subs = Subs(active: Text, last: Text, hwSubscribed: bool, topics: set<Text>)

  function Updated(s: Subs, m: Image): Subs {
    s.(active := ValidSerial(m))
  }

  predicate Changes(s: Subs, m: Image) {
    s.active != ValidSerial(m)
  }

  function WithHwId(s: Subs, hw: Text, force: bool): Subs {
    if force || !s.hwSubscribed then s.(topics := s.topics + {hw}, hwSubscribed := true) else s
  }

  function WithSerial(s: Subs, force: bool): Subs {
    if s.active == [] then s.(topics := s.topics - Nonempty(s.last), last := [])
    else if force || s.active != s.last then s.(topics := (s.topics - Nonempty(s.last)) + {s.active}, last := s.active)
    else s
  }

  function Nonempty(id: Text): set<Text> {
    if id == [] then {} else {id}
  }

  function Refreshed(s: Subs, hw: Text, m: Image, force: bool): Subs {
    WithSerial(WithHwId(Updated(s, m), hw, force), force)
  }

  /** MQTT_EVENT_CONNECTED: a clean session, then everything anew. */
  function Connected(s: Subs, hw: Text, m: Image): Subs {
    Refreshed(Updated(s, m).(hwSubscribed := false, last := [], topics := {}), hw, m, true)
  }

  /** The part of mqtt_connection_maintenance that concerns a connected client. */
  function Maintained(s: Subs, hw: Text, m: Image): Subs {
    if Changes(s, m) then Refreshed(Updated(s, m), hw, m, false) else s
  }

  class SubscriptionManager {
    const hwId: Text
    var activeSerial: Text
    var lastSerialSubscribed: Text
    var hwIdSubscribed: bool
    ghost var topics: set<Text>  // what the broker has from this session

    ghost predicate Valid() {
      hwId != []
    }

    ghost function View(): Subs
      reads this
    {
      Subs(activeSerial, lastSerialSubscribed, hwIdSubscribed, topics)
    }

    constructor (hwId: Text)
      requires hwId != []
      ensures Valid() && this.hwId == hwId && View() == Subs([], [], false, {})
    {
      this.hwId := hwId;
      activeSerial, lastSerialSubscribed, hwIdSubscribed, topics := [], [], false, {};
    }

    method ExtractSerial(eeprom: Image) returns (out: Text)
      ensures out == Serial(eeprom)
    {
      out := [];
      var field := SerialField(eeprom);
      var i := 0;
      while i < EEPROM_SERIAL_MAX_LEN && Printable(field[i])
        invariant i <= EEPROM_SERIAL_MAX_LEN && out == field[..i]
        invariant PrintablePrefix(field) == out + PrintablePrefix(field[i..])
      {
        assert field[i..][1..] == field[i + 1..];
        out := out + [field[i]];
        i := i + 1;
      }
      assert PrintablePrefix(field) == out;
      while out != [] && Space(out[|out| - 1])
        invariant Trimmed(out) == Trimmed(PrintablePrefix(field))
        decreases |out|
      {
        out := out[..|out| - 1];
      }
    }

    method IsSerialValid(serial: Text) returns (valid: bool)
      ensures valid <==> Meaningful(serial)
    {
      for i := 0 to |serial|
        invariant forall j :: 0 <= j < i ==> Space(serial[j]) || serial[j] == ZERO
      {
        if !Space(serial[i]) && serial[i] != ZERO {
          return true;
        }
      }
      return false;
    }

    method UpdateActiveSerial(eeprom: Image) returns (changed: bool)
      modifies this`activeSerial
      ensures View() == Updated(old(View()), eeprom)
      ensures changed <==> Changes(old(View()), eeprom)
    {
      var serial := ExtractSerial(eeprom);
      var valid := IsSerialValid(serial);
      if !valid {
        changed := activeSerial != [];
        activeSerial := [];
      } else {
        changed := activeSerial != serial;
        activeSerial := serial;
      }
    }

    /** Both app topics of an identity; nothing for an empty one. */
    method SubscribeIdentity(identity: Text)
      modifies this`topics
      ensures topics == old(topics) + Nonempty(identity)
    {
      topics := topics + Nonempty(identity);
    }

    method UnsubscribeIdentity(identity: Text)
      modifies this`topics
      ensures topics == old(topics) - Nonempty(identity)
    {
      topics := topics - Nonempty(identity);
    }

    method RefreshAppSubscriptions(eeprom: Image, client: bool, force: bool)
      requires Valid()
      modifies this
      ensures View() == if client then Refreshed(old(View()), hwId, eeprom, force) else Updated(old(View()), eeprom)
    {
      var _ := UpdateActiveSerial(eeprom);
      if !client {
        return;
      }
      if force || !hwIdSubscribed {
        SubscribeIdentity(hwId);
        hwIdSubscribed := true;
      }
      if activeSerial == [] {
        if lastSerialSubscribed != [] {
          UnsubscribeIdentity(lastSerialSubscribed);
          lastSerialSubscribed := [];
        }
        return;
      }
      if force || activeSerial != lastSerialSubscribed {
        if lastSerialSubscribed != [] {
          UnsubscribeIdentity(lastSerialSubscribed);
        }
        SubscribeIdentity(activeSerial);
        lastSerialSubscribed := activeSerial;
      }
    }

    method OnConnected(eeprom: Image)
      requires Valid()
      modifies this
      ensures View() == Connected(old(View()), hwId, eeprom)
    {
      var _ := UpdateActiveSerial(eeprom);
      topics := {};
      hwIdSubscribed := false;
      lastSerialSubscribed := [];
      RefreshAppSubscriptions(eeprom, true, true);
    }
  }

  // ---- A session ------------------------------------------------------------

  datatype Event =
    | Update(m: Image)     // the serial is looked at and the result discarded
    | Refresh(m: Image)
    | Maintenance(m: Image)

  function After(s: Subs, hw: Text, e: Event): Subs {
    match e
    case Update(m) => Updated(s, m)
    case Refresh(m) => Refreshed(s, hw, m, false)
    case Maintenance(m) => Maintained(s, hw, m)
  }

  function Session(s: Subs, hw: Text, events: seq<Event>): Subs
    decreases |events|
  {
    if events == [] then s else After(Session(s, hw, events[..|events| - 1]), hw, events[|events| - 1])
  }

  /** The broker has the hardware id and the serial the client last subscribed for, and no more. */
  predicate InStep(s: Subs, hw: Text) {
    s.hwSubscribed && s.topics == {hw} + Nonempty(s.last) && s.last != hw
  }

  /** No EEPROM the session looks at shows the hardware id as its serial. */
  predicate Distinct(hw: Text, events: seq<Event>) {
    forall e :: e in events ==> ValidSerial(e.m) != hw
  }

  lemma EventKeepsStep(s: Subs, hw: Text, e: Event)
    requires InStep(s, hw) && hw != [] && ValidSerial(e.m) != hw
    ensures InStep(After(s, hw, e), hw)
    ensures e.Refresh? ==> After(s, hw, e).topics == {hw} + Nonempty(ValidSerial(e.m))
  {
  }

  lemma ConnectedInStep(s: Subs, hw: Text, m: Image)
    requires hw != [] && ValidSerial(m) != hw
    ensures InStep(Connected(s, hw, m), hw)
    ensures Connected(s, hw, m).topics == {hw} + Nonempty(ValidSerial(m))
  {
  }

  /** In every state of a connected session the subscribed identities are the hardware id and the last
      serial subscribed for; right after a refresh that is the mirror's valid serial. */
  lemma {:induction false} SubscriptionsInStep(s: Subs, hw: Text, m: Image, events: seq<Event>)
    requires hw != [] && ValidSerial(m) != hw && Distinct(hw, events)
    ensures var t := Session(Connected(s, hw, m), hw, events);
            && InStep(t, hw)
            && (events != [] && events[|events| - 1].Refresh? ==> t.topics == {hw} + Nonempty(ValidSerial(events[|events| - 1].m)))
    decreases |events|
  {
    ConnectedInStep(s, hw, m);
    if events != [] {
      var last := |events| - 1;
      SubscriptionsInStep(s, hw, m, events[..last]);
      assert events[last] in events;
      EventKeepsStep(Session(Connected(s, hw, m), hw, events[..last]), hw, events[last]);
    }
  }

  lemma MaintenanceFollows(s: Subs, hw: Text, m: Image)
    requires InStep(s, hw) && s.active == s.last && hw != [] && ValidSerial(m) != hw
    ensures var t := Maintained(s, hw, m);
            && InStep(t, hw) && t.active == t.last && t.topics == {hw} + Nonempty(ValidSerial(m))
            && (ValidSerial(m) == s.active ==> t == s)
  {
  }

  lemma RefreshFollows(s: Subs, hw: Text, m: Image)
    requires InStep(s, hw) && hw != [] && ValidSerial(m) != hw
    ensures var t := Refreshed(s, hw, m, false);
            InStep(t, hw) && t.active == t.last && t.topics == {hw} + Nonempty(ValidSerial(m))
  {
  }

  /** In a session in which no change is discarded, the subscriptions follow the mirror: every refresh and
      every maintenance leaves just the hardware id and the serial the mirror then shows. */
  lemma {:induction false} SubscriptionsFollow(s: Subs, hw: Text, m: Image, events: seq<Event>)
    requires hw != [] && ValidSerial(m) != hw && Distinct(hw, events)
    requires forall e :: e in events ==> !e.Update?
    ensures var t := Session(Connected(s, hw, m), hw, events);
            && InStep(t, hw) && t.active == t.last
            && t.topics == {hw} + Nonempty(ValidSerial(if events == [] then m else events[|events| - 1].m))
    decreases |events|
  {
    if events == [] {
      ConnectedInStep(s, hw, m);
      ConnectedActive(s, hw, m);
    } else {
      var last := |events| - 1;
      SubscriptionsFollow(s, hw, m, events[..last]);
      assert events[last] in events;
      var before := Session(Connected(s, hw, m), hw, events[..last]);
      if events[last].Refresh? {
        RefreshFollows(before, hw, events[last].m);
      } else {
        MaintenanceFollows(before, hw, events[last].m);
      }
    }
  }

  lemma ConnectedActive(s: Subs, hw: Text, m: Image)
    ensures Connected(s, hw, m).active == Connected(s, hw, m).last == ValidSerial(m)
  {
  }

  /** A change seen where the result is discarded is not seen again: the next maintenance leaves the
      topics as they are, right exactly if the new serial was the one subscribed for anyway. */
  lemma SwallowedChange(s: Subs, hw: Text, m: Image)
    requires InStep(s, hw) && hw != [] && ValidSerial(m) != hw
    ensures var t := Maintained(Updated(s, m), hw, m);
            && t.topics == s.topics
            && (t.topics == {hw} + Nonempty(ValidSerial(m)) <==> ValidSerial(m) == s.last)
  {
    if ValidSerial(m) != s.last {
      if ValidSerial(m) != [] {
        assert ValidSerial(m) in {hw} + Nonempty(ValidSerial(m)) && ValidSerial(m) !in s.topics;
      } else {
        assert s.last in s.topics && s.last !in {hw} + Nonempty(ValidSerial(m));
      }
    }
  }

  /** Where the serial is the hardware id, giving it up as a serial drops the hardware id too: a
      refresh keeps the hardware id subscribed exactly if it was not the last serial, or still is. */
  lemma AliasLosesHwId(s: Subs, hw: Text, m: Image)
    requires s.hwSubscribed && hw in s.topics && hw != []
    ensures hw in Refreshed(s, hw, m, false).topics <==> (s.last == hw ==> ValidSerial(m) == hw)
  {
  }
}
