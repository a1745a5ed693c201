/** The MQTT debug message: a byte list printed in decimal into a fixed buffer
    with a chain of snprintf calls, and the reader that takes it apart again. */
module DebugPrinter {
  import opened Layout

  const JSON_BUFFER: nat := 1024

  // ---- The text -------------------------------------------------------------

  function Digit(d: nat): (c: char)
    requires d < 10
    ensures '0' <= c <= '9'
  {
    '0' + d as char
  }

  /** "%d" of a byte. */
  function Decimal(b: byte): (s: string)
    ensures 1 <= |s| <= 3 && forall c :: c in s ==> '0' <= c <= '9'
  {
    var n: nat := b;
    if n < 10 then [Digit(n)]
    else if n < 100 then [Digit(n / 10), Digit(n % 10)]
    else [Digit(n / 100), Digit(n / 10 % 10), Digit(n % 10)]
  }

  /** The bytes as the loop has printed them after some of them: a comma follows each but the last. */
  function Listed(data: seq<byte>, i: nat): string
    requires i <= |data|
  {
    if i == 0 then "" else Listed(data, i - 1) + Decimal(data[i - 1]) + if i < |data| then "," else ""
  }

  const OPENING: string := "{\"message\":\""
  const MIDDLE: string := "\",\"topic\":\""
  const ADDRESS: string := "\",\"address\":\""
  const CLOSING: string := "\"}"

  function Tail(topic: string, address: string): string {
    MIDDLE + topic + ADDRESS + address + CLOSING
  }

  function Json(data: seq<byte>, topic: string, address: string): string {
    OPENING + Listed(data, |data|) + Tail(topic, address)
  }

  // ---- Printing -------------------------------------------------------------

  /** snprintf at an offset: the text and a NUL if they fit, otherwise as much as does; the return
      value is the text's length either way. */
  method Snprintf(buffer: array<char>, at: nat, text: string) returns (n: nat)
    requires at < buffer.Length
    modifies buffer
    ensures n == |text|
    ensures buffer[..at] == old(buffer[..at])
    ensures at + |text| < buffer.Length ==> buffer[at..at + |text|] == text && buffer[at + |text|] == '\0'
  {
    n := |text|;
    var room := if at + |text| < buffer.Length then |text| else buffer.Length - 1 - at;
    forall i | 0 <= i < room {
      buffer[at + i] := text[i];
    }
    buffer[at + room] := '\0';
  }

  /** One more piece of text behind what is printed already. */
  method Append(buffer: array<char>, len: nat, text: string, ghost sofar: string) returns (total: nat)
    requires buffer.Length == JSON_BUFFER && len < JSON_BUFFER && sofar == buffer[..len]
    modifies buffer
    ensures total == len + |text|
    ensures total < JSON_BUFFER ==> buffer[..total] == sofar + text
  {
    var n := Snprintf(buffer, len, text);
    total := len + n;
    assert total < JSON_BUFFER ==> buffer[..total] == buffer[..len] + buffer[len..total];
  }

  /** One turn of the printing loop. */
  method AppendByte(buffer: array<char>, len: nat, data: seq<byte>, i: nat) returns (total: nat)
    requires buffer.Length == JSON_BUFFER && len < JSON_BUFFER && i < |data| && buffer[..len] == OPENING + Listed(data, i)
    modifies buffer
    ensures total >= JSON_BUFFER ==> |OPENING + Listed(data, i + 1)| >= JSON_BUFFER
    ensures total < JSON_BUFFER ==> buffer[..total] == OPENING + Listed(data, i + 1)
  {
    total := Append(buffer, len, Decimal(data[i]), OPENING + Listed(data, i));
    if total < JSON_BUFFER && i < |data| - 1 {
      total := Append(buffer, total, ",", OPENING + Listed(data, i) + Decimal(data[i]));
    }
    assert OPENING + Listed(data, i) + Decimal(data[i]) + "" == OPENING + Listed(data, i) + Decimal(data[i]);
    NextListed(data, i);
  }

  lemma NextListed(data: seq<byte>, i: nat)
    requires i < |data|
    ensures OPENING + Listed(data, i + 1) == OPENING + Listed(data, i) + Decimal(data[i]) + if i + 1 < |data| then "," else ""
  {
  }

  /** publish_debug_message up to the call that publishes: the length and the characters it hands
      over.  The first print that does not fit ends the model: from there on the code writes past its
      buffer. */
  method PublishDebugMessage(data: seq<byte>, topic: string, address: string) returns (fits: bool, jsonLen: nat, payload: string)
    ensures fits <==> |Json(data, topic, address)| < JSON_BUFFER
    ensures fits ==> payload == Json(data, topic, address) && jsonLen == |payload|
  {
    var buffer := new char[JSON_BUFFER](_ => '\0');
    fits, payload := false, "";
    jsonLen := Append(buffer, 0, OPENING, "");
    for i := 0 to |data|
      invariant jsonLen < JSON_BUFFER && buffer[..jsonLen] == OPENING + Listed(data, i)
    {
      jsonLen := AppendByte(buffer, jsonLen, data, i);
      if jsonLen >= JSON_BUFFER {
        ListedGrows(data, i + 1, topic, address);
        return;
      }
    }
    jsonLen := Append(buffer, jsonLen, Tail(topic, address), OPENING + Listed(data, |data|));
    fits := jsonLen < JSON_BUFFER;
    if fits {
      payload := buffer[..jsonLen];
    }
  }

  lemma {:induction false} ListedGrows(data: seq<byte>, i: nat, topic: string, address: string)
    requires i <= |data|
    ensures |OPENING + Listed(data, i)| <= |Json(data, topic, address)|
    decreases |data| - i
  {
    if i < |data| {
      ListedGrows(data, i + 1, topic, address);
    }
  }

  // ---- The length -----------------------------------------------------------

  function DigitCount(data: seq<byte>): nat {
    if data == [] then 0 else DigitCount(data[..|data| - 1]) + |Decimal(data[|data| - 1])|
  }

  lemma {:induction false} ListedLength(data: seq<byte>, i: nat)
    requires i <= |data|
    ensures |Listed(data, i)| == DigitCount(data[..i]) + if i < |data| then i else if i == 0 then 0 else i - 1
  {
    if i > 0 {
      ListedLength(data, i - 1);
      assert data[..i][..i - 1] == data[..i - 1];
    }
  }

  /** json_len is 38 plus digits, commas, topic and address. */
  lemma JsonLength(data: seq<byte>, topic: string, address: string)
    ensures |Json(data, topic, address)| ==
            38 + DigitCount(data) + (if data == [] then 0 else |data| - 1) + |topic| + |address|
  {
    ListedLength(data, |data|);
    assert data[..|data|] == data;
  }

  // ---- Reading it back ------------------------------------------------------

  predicate IsDigit(c: char) { '0' <= c <= '9' }

  /** The reader of the message field: numbers up to the closing quote, separated by commas. */
  function ReadList(s: string, value: nat, started: bool): seq<nat> {
    if s == "" || s[0] == '"' then if started then [value] else []
    else if IsDigit(s[0]) then ReadList(s[1..], 10 * value + (s[0] - '0') as nat, true)
    else [value] + ReadList(s[1..], 0, false)
  }

  function ReadMessage(text: string): seq<nat> {
    if |text| < |OPENING| then [] else ReadList(text[|OPENING|..], 0, false)
  }

  lemma ReadDigit(d: nat, rest: string, value: nat, started: bool)
    requires d < 10
    ensures ReadList([Digit(d)] + rest, value, started) == ReadList(rest, 10 * value + d, true)
  {
    assert ([Digit(d)] + rest)[1..] == rest;
  }

  lemma ReadTwo(d: nat, e: nat, rest: string, value: nat, started: bool)
    requires d < 10 && e < 10
    ensures ReadList([Digit(d), Digit(e)] + rest, value, started) == ReadList(rest, 10 * (10 * value + d) + e, true)
  {
    var units := [Digit(e)] + rest;
    assert [Digit(d), Digit(e)] + rest == [Digit(d)] + units;
    ReadDigit(d, units, value, started);
    ReadDigit(e, rest, 10 * value + d, true);
  }

  lemma ReadThree(d: nat, e: nat, f: nat, rest: string)
    requires d < 10 && e < 10 && f < 10
    ensures ReadList([Digit(d), Digit(e), Digit(f)] + rest, 0, false) == ReadList(rest, 100 * d + 10 * e + f, true)
  {
    var tens := [Digit(e), Digit(f)] + rest;
    assert [Digit(d), Digit(e), Digit(f)] + rest == [Digit(d)] + tens;
    ReadDigit(d, tens, 0, false);
    ReadTwo(e, f, rest, d, true);
  }

  lemma ThreeDigits(n: nat)
    ensures 100 * (n / 100) + 10 * (n / 10 % 10) + n % 10 == n
  {
  }

  lemma ReadNumber(b: byte, rest: string)
    ensures ReadList(Decimal(b) + rest, 0, false) == ReadList(rest, b, true)
  {
    var n: nat := b;
    if n < 10 {
      ReadDigit(n, rest, 0, false);
    } else if n < 100 {
      ReadTwo(n / 10, n % 10, rest, 0, false);
    } else {
      ReadThree(n / 100, n / 10 % 10, n % 10, rest);
      ThreeDigits(n);
    }
  }

  /** The bytes from i on, as printed. */
  function ListedFrom(data: seq<byte>, i: nat): string
    requires i <= |data|
    decreases |data| - i
  {
    if i == |data| then "" else Decimal(data[i]) + Comma(data, i) + ListedFrom(data, i + 1)
  }

  function Comma(data: seq<byte>, i: nat): string {
    if i + 1 < |data| then "," else ""
  }

  lemma Regroup(a: string, b: string, c: string, d: string)
    ensures ((a + b) + c) + d == a + ((b + c) + d)
  {
  }

  lemma {:induction false} ListedSplits(data: seq<byte>, i: nat)
    requires i <= |data|
    ensures Listed(data, |data|) == Listed(data, i) + ListedFrom(data, i)
    decreases |data| - i
  {
    if i < |data| {
      ListedSplits(data, i + 1);
      Regroup(Listed(data, i), Decimal(data[i]), Comma(data, i), ListedFrom(data, i + 1));
      assert Listed(data, i + 1) == (Listed(data, i) + Decimal(data[i])) + Comma(data, i);
    }
  }

  lemma ReadComma(rest: string, value: nat)
    ensures ReadList("," + rest, value, true) == [value] + ReadList(rest, 0, false)
  {
    assert ("," + rest)[1..] == rest;
  }

  /** A number and the comma behind it. */
  lemma ReadItem(b: byte, rest: string)
    ensures ReadList(Decimal(b) + ("," + rest), 0, false) == [b as nat] + ReadList(rest, 0, false)
  {
    ReadNumber(b, "," + rest);
    ReadComma(rest, b);
  }

  lemma ReadLast(b: byte, rest: string)
    requires rest != "" && rest[0] == '"'
    ensures ReadList(Decimal(b) + rest, 0, false) == [b as nat]
  {
    ReadNumber(b, rest);
  }

  lemma ItemFirst(data: seq<byte>, i: nat, rest: string)
    requires i < |data|
    ensures ListedFrom(data, i) + rest ==
            Decimal(data[i]) + if i + 1 < |data| then "," + (ListedFrom(data, i + 1) + rest) else rest
  {
  }

  lemma {:induction false} ReadListed(data: seq<byte>, i: nat, rest: string)
    requires i <= |data| && rest != "" && rest[0] == '"'
    ensures ReadList(ListedFrom(data, i) + rest, 0, false) == data[i..]
    decreases |data| - i
  {
    if i < |data| {
      ItemFirst(data, i, rest);
      if i + 1 < |data| {
        ReadItem(data[i], ListedFrom(data, i + 1) + rest);
        ReadListed(data, i + 1, rest);
        assert data[i..] == [data[i]] + data[i + 1..];
      } else {
        ReadLast(data[i], rest);
        assert data[i..] == [data[i]];
      }
    } else {
      assert ListedFrom(data, i) + rest == rest;
    }
  }

  /** Reading a printed message gives back exactly the bytes, whatever topic and address. */
  lemma ReadPrinted(data: seq<byte>, topic: string, address: string)
    ensures ReadMessage(Json(data, topic, address)) == data
  {
    var text := Json(data, topic, address);
    ListedSplits(data, 0);
    ReadListed(data, 0, Tail(topic, address));
    assert text[|OPENING|..] == ListedFrom(data, 0) + Tail(topic, address);
  }

  // ---- The fields -----------------------------------------------------------

  /** What lies between the quotation marks. */
  function Parts(s: string): (r: seq<string>)
    ensures r != []
  {
    if s == "" then [""]
    else
      var rest := Parts(s[1..]);
      if s[0] == '"' then [""] + rest else [[s[0]] + rest[0]] + rest[1..]
  }

  lemma {:induction false} FirstPart(a: string, rest: string)
    requires '"' !in a
    ensures Parts(a + "\"" + rest) == [a] + Parts(rest)
  {
    var s := a + "\"" + rest;
    if a == "" {
      assert s[1..] == rest;
    } else {
      FirstPart(a[1..], rest);
      assert s[1..] == a[1..] + "\"" + rest;
      assert [a[0]] + a[1..] == a;
    }
  }

  lemma {:induction false} OnePart(s: string)
    ensures |Parts(s)| == 1 <==> '"' !in s
    ensures '"' !in s ==> Parts(s) == [s]
  {
    if s != "" {
      OnePart(s[1..]);
      assert s == [s[0]] + s[1..];
    }
  }

  lemma {:induction false} PartsAdd(a: string, b: string)
    ensures |Parts(a + b)| == |Parts(a)| + |Parts(b)| - 1
  {
    if a == "" {
      assert a + b == b;
    } else {
      PartsAdd(a[1..], b);
      assert (a + b)[1..] == a[1..] + b;
    }
  }

  lemma {:induction false} ListedPlain(data: seq<byte>, i: nat)
    requires i <= |data|
    ensures '"' !in Listed(data, i)
  {
    if i > 0 {
      ListedPlain(data, i - 1);
    }
  }

  /** What the printed message is to hold: three fields by name. */
  function Fields(list: string, topic: string, address: string): seq<string> {
    ["{", "message", ":", list, ",", "topic", ":", topic, ",", "address", ":", address, "}"]
  }

  function Joined(parts: seq<string>): string {
    if parts == [] then "" else if |parts| == 1 then parts[0] else parts[0] + "\"" + Joined(parts[1..])
  }

  lemma {:induction false} PartsOfJoined(parts: seq<string>)
    requires parts != [] && forall p :: p in parts ==> '"' !in p
    ensures Parts(Joined(parts)) == parts
    decreases |parts|
  {
    if |parts| == 1 {
      OnePart(parts[0]);
    } else {
      PartsOfJoined(parts[1..]);
      FirstPart(parts[0], Joined(parts[1..]));
    }
  }

  lemma JoinedTwo(first: string, rest: seq<string>)
    requires rest != []
    ensures Joined([first] + rest) == first + "\"" + Joined(rest)
  {
  }

  /** What leads to a field's value: what stands before its name, the name, the colon. */
  function Label(before: string, name: string): string {
    before + "\"" + name + "\"" + ":" + "\""
  }

  lemma JoinedField(before: string, name: string, value: string, rest: seq<string>)
    requires rest != []
    ensures Joined([before, name, ":", value] + rest) == Label(before, name) + value + "\"" + Joined(rest)
  {
    var d := [value] + rest;
    var c := [":"] + d;
    var b := [name] + c;
    var a := [before] + b;
    assert a == [before, name, ":", value] + rest;
    assert a[1..] == b && b[1..] == c && c[1..] == d && d[1..] == rest;
    JoinedTwo(before, b);
    JoinedTwo(name, c);
    JoinedTwo(":", d);
    JoinedTwo(value, rest);
    LeftToRight(before, name, value, "\"", ":", Joined(rest));
  }

  lemma LeftToRight(a: string, b: string, c: string, q: string, colon: string, rest: string)
    ensures a + q + (b + q + (colon + q + (c + q + rest))) == (a + q + b + q + colon + q) + c + q + rest
  {
  }

  lemma Labels()
    ensures Label("{", "message") == OPENING
    ensures "\"" + Label(",", "topic") == MIDDLE
    ensures "\"" + Label(",", "address") == ADDRESS
    ensures "\"" + "}" == CLOSING
  {
  }

  lemma Regrouped(o: string, list: string, q: string, x: string, topic: string, y: string, address: string, e: string)
    ensures o + list + q + (x + topic + q + (y + address + q + e)) == o + list + ((q + x) + topic + (q + y) + address + (q + e))
  {
  }

  lemma JsonParts(data: seq<byte>, topic: string, address: string)
    requires '"' !in topic && '"' !in address
    ensures Parts(Json(data, topic, address)) == Fields(Listed(data, |data|), topic, address)
  {
    var list := Listed(data, |data|);
    ListedPlain(data, |data|);
    FieldsJoined(list, topic, address);
    FieldsPlain(list, topic, address);
  }

  lemma FieldsPlain(list: string, topic: string, address: string)
    requires '"' !in list && '"' !in topic && '"' !in address
    ensures Parts(Joined(Fields(list, topic, address))) == Fields(list, topic, address)
  {
    var fields := Fields(list, topic, address);
    forall p | p in fields
      ensures '"' !in p
    {
    }
    PartsOfJoined(fields);
  }

  lemma FieldsJoined(list: string, topic: string, address: string)
    ensures Joined(Fields(list, topic, address)) == OPENING + list + Tail(topic, address)
  {
    var c := [",", "address", ":", address] + ["}"];
    var b := [",", "topic", ":", topic] + c;
    assert Fields(list, topic, address) == ["{", "message", ":", list] + b;
    JoinedField(",", "address", address, ["}"]);
    JoinedField(",", "topic", topic, c);
    JoinedField("{", "message", list, b);
    Labels();
    Regrouped(OPENING, list, "\"", Label(",", "topic"), topic, Label(",", "address"), address, "}");
  }

  lemma JsonPartCount(data: seq<byte>, topic: string, address: string)
    ensures |Parts(Json(data, topic, address))| == 11 + |Parts(topic)| + |Parts(address)|
  {
    JsonParts(data, "", "");
    OnePart("");
    TailPartCount(topic, address);
    TailPartCount("", "");
    PartsAdd(OPENING + Listed(data, |data|), Tail(topic, address));
    PartsAdd(OPENING + Listed(data, |data|), Tail("", ""));
  }

  lemma TailPartCount(topic: string, address: string)
    ensures |Parts(Tail(topic, address))| == |Parts(MIDDLE)| + |Parts(topic)| + |Parts(ADDRESS)| + |Parts(address)| + |Parts(CLOSING)| - 4
  {
    PartsAdd(MIDDLE, topic);
    PartsAdd(MIDDLE + topic, ADDRESS);
    PartsAdd(MIDDLE + topic + ADDRESS, address);
    PartsAdd(MIDDLE + topic + ADDRESS + address, CLOSING);
  }

  /** The message has its three fields, each under its name, exactly if neither topic nor address has a
      quotation mark: nothing is escaped. */
  lemma FieldsExactly(data: seq<byte>, topic: string, address: string)
    ensures Parts(Json(data, topic, address)) == Fields(Listed(data, |data|), topic, address)
            <==> '"' !in topic && '"' !in address
  {
    JsonPartCount(data, topic, address);
    OnePart(topic);
    OnePart(address);
    if '"' !in topic && '"' !in address {
      JsonParts(data, topic, address);
    }
  }
}
