/** What the unit task shares with its surroundings: the EEPROM record and the
    request word, which the BLE and MQTT tasks write too, and the UART. */
module Globals {
  import opened Layout
  import opened Frame
  import opened Requests
  import opened Link
  import FlagWord

  class Shared {
    const eeprom: array<byte>   // gRDEeprom, byte by byte
    var requestIndex: bv16      // Read_Eeprom_Request_Index
    var landing: nat            // how many tasks stand between copying a payload and raising its bits
    ghost var image: Image
    ghost var jobs: set<Job>

    ghost predicate Valid()
      reads this, eeprom
    {
      eeprom.Length == EEPROM_SIZE && eeprom[..] == image && FlagWord.Shows(requestIndex, jobs)
    }

    constructor ()
      ensures Valid() && fresh(eeprom) && image == seq(EEPROM_SIZE, _ => 0) && jobs == {} && landing == 0
    {
      eeprom := new byte[EEPROM_SIZE](_ => 0);
      requestIndex, landing := 0, 0;
      image, jobs := seq(EEPROM_SIZE, _ => 0), {};
      new;
      FlagWord.ZeroShows();
    }

    /** requestIndex |= mask */
    method Raise(j: Job)
      requires Valid() && FlagWord.HasBit(j)
      modifies this`requestIndex, this`jobs
      ensures Valid() && jobs == old(jobs) + {j}
    {
      FlagWord.RaiseShows(requestIndex, jobs, j);
      requestIndex := requestIndex | FlagWord.Mask(j);
      jobs := jobs + {j};
    }

    /** requestIndex &= ~mask */
    method Clear(j: Job)
      requires Valid() && FlagWord.HasBit(j)
      modifies this`requestIndex, this`jobs
      ensures Valid() && jobs == old(jobs) - {j}
    {
      var m := FlagWord.Mask(j);
      FlagWord.ClearShows(requestIndex, jobs, j, m);
      requestIndex := requestIndex & !m;
      jobs := jobs - {j};
    }

    method ClearAll()
      requires Valid()
      modifies this`requestIndex, this`jobs
      ensures Valid() && jobs == {}
    {
      FlagWord.ZeroShows();
      requestIndex, jobs := 0, {};
    }

    /** (requestIndex & mask) == mask */
    method Test(j: Job) returns (up: bool)
      requires Valid() && FlagWord.HasBit(j)
      ensures up <==> j in jobs
    {
      up := FlagWord.Up(requestIndex, j);
      FlagWord.ShowsUp(requestIndex, jobs, j);
    }

    /** memcpy into the record, as far as it reaches. */
    method CopyIn(at: nat, data: seq<byte>)
      requires Valid()
      modifies this`image, eeprom
      ensures Valid() && image == Patch(old(image), at, data)
    {
      ghost var was := image;
      var n := if at + |data| <= EEPROM_SIZE then |data| else if at <= EEPROM_SIZE then EEPROM_SIZE - at else 0;
      for i := 0 to n
        invariant eeprom[..] == Patch(was, at, data[..i])
      {
        eeprom[at + i] := data[i];
        assert eeprom[..] == Patch(was, at, data[..i])[at + i := data[i]];
        assert eeprom[..] == Patch(was, at, data[..i + 1]);
      }
      assert eeprom[..] == Patch(was, at, data);
      image := Patch(was, at, data);
    }

    method Load(i: nat) returns (x: byte)
      requires Valid() && i < EEPROM_SIZE
      ensures x == image[i]
    {
      x := eeprom[i];
      assert eeprom[..][i] == x;
    }

    /** One counter of the record. */
    method StoreByte(i: nat, x: byte)
      requires Valid() && i < EEPROM_SIZE
      modifies this`image, eeprom
      ensures Valid() && image == old(image)[i := x]
    {
      eeprom[i] := x;
      image := image[i := x];
    }

    method Wipe()
      requires Valid()
      modifies this`image, eeprom
      ensures Valid() && image == seq(EEPROM_SIZE, _ => 0)
    {
      forall i | 0 <= i < EEPROM_SIZE {
        eeprom[i] := 0;
      }
      image := seq(EEPROM_SIZE, _ => 0);
    }

    // ---- The application's tasks --------------------------------------------

    /** The copy of a payload into the record, which the BLE and the MQTT task each make; false if it
        is too short.  The conversion of the old 242-byte layout is never taken, for the record does
        not have the 241 bytes it asks for. */
    method ApplyEepromPayload(payload: seq<byte>) returns (accepted: bool)
      requires Valid()
      modifies this`image, this`landing, eeprom
      ensures Valid() && (accepted <==> |payload| >= MIN_PAYLOAD)
      ensures image == (if accepted then PayloadImage(payload) else old(image))
      ensures landing == old(landing) + if accepted then 1 else 0
    {
      accepted := |payload| >= MIN_PAYLOAD;
      if accepted {
        Wipe();
        var copyLen := if |payload| > EEPROM_SIZE then EEPROM_SIZE else |payload|;
        CopyIn(0, payload[..copyLen]);
        assert image == PayloadImage(payload);
        landing := landing + 1;
      }
    }

    /** The five write bits of an accepted payload. */
    method ScheduleFullEepromWrite()
      requires Valid() && landing > 0
      modifies this`requestIndex, this`jobs, this`landing
      ensures Valid() && jobs == old(jobs) + FLUSH && landing == old(landing) - 1
    {
      Raise(WriteJob(Info));
      Raise(WriteJob(SettingPar));
      Raise(WriteJob(SetTemp));
      Raise(WriteJob(DayProg));
      Raise(WriteJob(HWSetting));
      landing := landing - 1;
    }

    /** A step of one of those tasks. */
    method Perform(a: AppStep)
      requires Valid()
      modifies this, eeprom
      ensures Valid()
      ensures image == (if a.Copy? && |a.payload| >= MIN_PAYLOAD then PayloadImage(a.payload) else old(image))
      ensures jobs == (if a.Raise? && old(landing) > 0 then old(jobs) + FLUSH else old(jobs))
      ensures landing == (if a.Raise? then if old(landing) > 0 then old(landing) - 1 else 0
                          else if |a.payload| >= MIN_PAYLOAD then old(landing) + 1 else old(landing))
    {
      if a.Copy? {
        var _ := ApplyEepromPayload(a.payload);
      } else if landing > 0 {
        ScheduleFullEepromWrite();
      }
    }
  }

  /** The line to the unit.  It keeps every frame written out beside the request it was made for. */
  class Uart {
    ghost var frames: seq<seq<byte>>
    ghost var requests: seq<Request>
    ghost var chars: seq<byte>        // bootloader characters

    ghost predicate Valid()
      reads this
    {
      |frames| == |requests| && forall i :: 0 <= i < |frames| ==> Conveys(frames[i], requests[i])
    }

    constructor ()
      ensures Valid() && requests == [] && chars == []
    {
      frames, requests, chars := [], [], [];
    }

    /** A frame goes out; what it makes the unit hear is the request. */
    method Write(frame: seq<byte>, ghost q: Request)
      requires Valid() && Conveys(frame, q)
      modifies this`frames, this`requests
      ensures Valid() && requests == old(requests) + [q] && frames == old(frames) + [frame]
    {
      frames, requests := frames + [frame], requests + [q];
    }

    method WriteChars(text: seq<byte>)
      requires Valid()
      modifies this`chars
      ensures Valid() && chars == old(chars) + text
    {
      chars := chars + text;
    }
  }
}
