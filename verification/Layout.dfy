/** The packed EEPROM record of the ventilation unit: each field's offset is
    the previous field's offset plus that field's size, as in the packed C
    declaration. */
module EepromStruct {
  const AddrUnit: nat := 0
  const Type_func := AddrUnit + 1
  const HW_Vers := Type_func + 1
  const SW_Vers := HW_Vers + 4
  const SerialString := SW_Vers + 5
  const SW_Vers_ModBus := SerialString + 18
  const SignTEST := SW_Vers_ModBus + 2
  const CodeErrTest := SignTEST + 2
  const hour_runnig := CodeErrTest + 1
  const time_lastCloggedFilters := hour_runnig + 4
  const AccessoyHW := time_lastCloggedFilters + 4
  const Enab_Fuction := AccessoyHW + 4
  const msk_Enab_Fuction := Enab_Fuction + 2
  const Dsc_Sdcard_Update_Delay := msk_Enab_Fuction + 2
  const Pir_Update_Delay := Dsc_Sdcard_Update_Delay + 1
  const Time_Fire_Test_Counter := Pir_Update_Delay + 1
  const Imbalance_Speed2 := Time_Fire_Test_Counter + 4
  const Imbalance_Speed3 := Imbalance_Speed2 + 1
  const cntUpdate_info := Imbalance_Speed3 + 1

  const numMotors := cntUpdate_info + 1
  const numPulseMotors := numMotors + 1
  const typeMotors := numPulseMotors + 1
  const chWireless := typeMotors + 1
  const depotMotors := chWireless + 1
  const numNTC := depotMotors + 1
  const Posiz_NTC := numNTC + 1
  const RotazioneBypass := Posiz_NTC + 1
  const Imbalance_IAQSpeed := RotazioneBypass + 1
  const size2_free := Imbalance_IAQSpeed + 1

  const Set_Power_ON := size2_free + 8
  const Config_Bypass := Set_Power_ON + 1
  const Set_Input := Config_Bypass + 1
  const Set_Output := Set_Input + 2
  const sel_idxStepMotors := Set_Output + 2
  const Set_StepMotorsCFS_CAF := sel_idxStepMotors + 1
  const Set_StepMotors_CAP := Set_StepMotorsCFS_CAF + 8
  const Set_Imbalance := Set_StepMotors_CAP + 8
  const Set_TimeBoost := Set_Imbalance + 2
  const SetPoint_CO2 := Set_TimeBoost + 1
  const SetPoint_RH := SetPoint_CO2 + 2
  const SetPoint_VOC := SetPoint_RH + 1
  const gg_manut_Filter := SetPoint_VOC + 2
  const service_password := gg_manut_Filter + 2
  const user_password := service_password + 5
  const calibra_cap := user_password + 5
  const manual_reset := calibra_cap + 2
  const DPP_Calibrationvalue := manual_reset + 1
  const Set_MBF_fresh := DPP_Calibrationvalue + 1
  const Set_MBF_return := Set_MBF_fresh + 1
  const SetPoint_Airflow_CO2 := Set_MBF_return + 1
  const Time_Fire_Test := SetPoint_Airflow_CO2 + 1
  const Fire_Config := Time_Fire_Test + 1
  const cntUpdate_SettingPar := Fire_Config + 1

  const Calibr := cntUpdate_SettingPar + 1
  const Bypass_minTempExt := Calibr + 6
  const SetPointTemp := Bypass_minTempExt + 2
  const idxSetPointT := SetPointTemp + 4
  const hister_AWP_Temp_Hot := idxSetPointT + 1
  const hister_AWP_Temp_Cold := hister_AWP_Temp_Hot + 2
  const hister_Temp_Hot := hister_AWP_Temp_Cold + 2
  const hister_Temp_Cold := hister_Temp_Hot + 2
  const Ref_T_setting := hister_Temp_Cold + 2
  const DeltaTemp_Supply := Ref_T_setting + 1
  const Set_EHD_mod := DeltaTemp_Supply + 1
  const Set_BPD_mod := Set_EHD_mod + 1
  const cntUpdate_SetTemp := Set_BPD_mod + 1

  // one day program: numRange, timeON[4], timeOFF[4], ConfigSpeed, ConfigImbal, ConfigTemp
  const DAY_PROGRAM_SIZE: nat := 1 + 4 + 4 + 1 + 1 + 1
  const sDayProg := cntUpdate_SetTemp + 1
  const cntUpdate_dayProg := sDayProg + 7 * DAY_PROGRAM_SIZE

  const version_eeprom := cntUpdate_dayProg + 1
  const check_eeprom := version_eeprom + 1
  const sizeof_S_EEPROM := check_eeprom + 2
}

/** The sections in which the protocol moves the record, and copies between it
    and message buffers. */
module Layout {
  import R = EepromStruct

  type byte = x: int | 0 <= x < 256

  const EEPROM_SIZE: nat := 243

  /** A copy of the whole record: the unit's own memory or this device's mirror of it. */
  type Image = m: seq<byte> | |m| == EEPROM_SIZE witness seq(EEPROM_SIZE, _ => 0)

  datatype Section = Info | Configuration | SettingPar | SetTemp | DayProg | HWSetting

  function Start(k: Section): nat {
    match k
    case Info => 0
    case Configuration => 59
    case SettingPar => 76
    case SetTemp => 135
    case DayProg => 155
    case HWSetting => 59
  }

  function End(k: Section): nat {
    match k
    case Info => 58
    case Configuration => 75
    case SettingPar => 128
    case SetTemp => 154
    case DayProg => 239
    case HWSetting => 75
  }

  function Count(k: Section): nat {
    (End(k) - Start(k)) + 1
  }

  predicate InSection(i: nat, k: Section) {
    Start(k) <= i < Start(k) + Count(k)
  }

  /** The sections that end in a change counter; the factory section has none. */
  predicate Counted(k: Section) {
    k != Configuration && k != HWSetting
  }

  /** Configuration and HWSetting name the same bytes. */
  predicate SameBytes(j: Section, k: Section) {
    Start(j) == Start(k)
  }

  /** No message ever carries byte i. */
  predicate Unassigned(i: nat) {
    forall k: Section :: !InSection(i, k)
  }

  const Set_Power_ON: nat := 76
  const SerialString: nat := 11

  /** The numbers above are those of the packed record: its size and the header's section macros
      over its fields. */
  lemma SectionMacros()
    ensures EEPROM_SIZE == R.sizeof_S_EEPROM
    ensures Start(Info) == R.AddrUnit && End(Info) == R.cntUpdate_info + 1 - 1
    ensures Start(Configuration) == R.numMotors && End(Configuration) == R.size2_free + 8 - 1
    ensures Start(SettingPar) == R.Set_Power_ON && End(SettingPar) == R.cntUpdate_SettingPar + 1 - 1
    ensures Start(SetTemp) == R.Bypass_minTempExt && End(SetTemp) == R.cntUpdate_SetTemp + 1 - 1
    ensures Start(DayProg) == R.sDayProg && End(DayProg) == R.cntUpdate_dayProg + 1 - 1
    ensures Start(HWSetting) == R.numMotors && End(HWSetting) == R.size2_free + 8 - 1
    ensures Set_Power_ON == R.Set_Power_ON && SerialString == R.SerialString
  {
  }

  /** Sections that name different bytes do not overlap, and exactly the bytes 129-134 and 240-242
      belong to no section. */
  lemma SectionMap()
    ensures forall j: Section, k: Section, i: nat :: InSection(i, j) && InSection(i, k) ==> SameBytes(j, k)
    ensures forall i: nat :: Unassigned(i) && i < EEPROM_SIZE <==> 129 <= i <= 134 || 240 <= i <= 242
  {
    forall i: nat
      ensures Unassigned(i) && i < EEPROM_SIZE <==> 129 <= i <= 134 || 240 <= i <= 242
    {
      if Unassigned(i) {
        assert !InSection(i, Info) && !InSection(i, HWSetting) && !InSection(i, SettingPar)
            && !InSection(i, SetTemp) && !InSection(i, DayProg);
      }
    }
  }

  /** The bytes of section k. */
  function Bytes(m: Image, k: Section): (s: seq<byte>)
    ensures |s| == Count(k)
  {
    m[Start(k)..Start(k) + Count(k)]
  }

  lemma SameByte(a: Image, b: Image, k: Section, i: nat)
    requires Bytes(a, k) == Bytes(b, k) && InSection(i, k)
    ensures a[i] == b[i]
  {
    assert Bytes(a, k)[i - Start(k)] == a[i] && Bytes(b, k)[i - Start(k)] == b[i];
  }

  /** Where the change counter of a counted section sits: its last byte. */
  function CounterAt(k: Section): nat {
    End(k)
  }

  function Counter(m: Image, k: Section): byte {
    m[CounterAt(k)]
  }

  lemma CounterIsLast(m: Image, k: Section)
    ensures Counter(m, k) == Bytes(m, k)[Count(k) - 1]
  {
  }

  /** memcpy into the record.  A copy that would run past its end keeps only the part inside. */
  function Patch(m: Image, at: nat, data: seq<byte>): (r: Image)
    ensures forall i: nat {:trigger r[i]} :: i < EEPROM_SIZE ==>
              r[i] == if at <= i < at + |data| then data[i - at] else m[i]
  {
    seq(EEPROM_SIZE, i requires 0 <= i < EEPROM_SIZE => if at <= i < at + |data| then data[i - at] else m[i])
  }

  /** Storing a full section replaces exactly that section. */
  lemma PatchSection(m: Image, k: Section, data: seq<byte>)
    requires |data| == Count(k)
    ensures Bytes(Patch(m, Start(k), data), k) == data
    ensures forall j: Section :: SameBytes(j, k) ==> Bytes(Patch(m, Start(k), data), j) == data
    ensures forall j: Section :: !SameBytes(j, k) ==> Bytes(Patch(m, Start(k), data), j) == Bytes(m, j)
    ensures forall i: nat {:trigger Patch(m, Start(k), data)[i]} :: Unassigned(i) && i < EEPROM_SIZE ==> Patch(m, Start(k), data)[i] == m[i]
  {
    var r := Patch(m, Start(k), data);
    forall j: Section
      ensures Bytes(r, j) == if SameBytes(j, k) then data else Bytes(m, j)
    {
      assert forall i :: 0 <= i < Count(j) ==> Bytes(r, j)[i] == r[Start(j) + i];
    }
    forall i: nat | Unassigned(i) && i < EEPROM_SIZE
      ensures r[i] == m[i]
    {
      assert !InSection(i, k);
    }
  }
}
