/** The decision helpers of the common Deye base component: the diagnostic-high
    bitfield, the device-type lookups, the grid-mode register, the firmware-version
    rule for protocol extensions, and the component's chargers, PV production,
    AC/DC power split and max-AC envelope. */
module AbstractDeye {
  import opened TypeUtils
  import opened EssCommon

  // ---------------------------------------------------------------------------
  // Diagnostic status (high word)
  // ---------------------------------------------------------------------------

  datatype DiagChannel =
    | DIAG_STATUS_BATTERY_PRECHARGE_RELAY_OFF
    | DIAG_STATUS_BYPASS_RELAY_STICK
    | DIAG_STATUS_METER_VOLTAGE_SAMPLE_FAULT
    | DIAG_STATUS_EXTERNAL_STOP_MODE_ENABLE
    | DIAG_STATUS_BATTERY_OFFGRID_DOD
    | DIAG_STATUS_BATTERY_SOC_ADJUST_ENABLE

  datatype DiagEntry = DiagEntry(mask: bv64, channel: DiagChannel)

  /** DIAG_STATUS_H_STATES. Its keys are Java `int`s and `value & key` widens a key to
      a `long` with sign extension, so the key 0x80000000 (negative as an `int`)
      masks with 0xFFFF_FFFF_8000_0000. */
  const DiagStatusHStates: seq<DiagEntry> := [
    DiagEntry(0x0000_0001, DIAG_STATUS_BATTERY_PRECHARGE_RELAY_OFF),
    DiagEntry(0x0000_0002, DIAG_STATUS_BYPASS_RELAY_STICK),
    DiagEntry(0x1000_0000, DIAG_STATUS_METER_VOLTAGE_SAMPLE_FAULT),
    DiagEntry(0x2000_0000, DIAG_STATUS_EXTERNAL_STOP_MODE_ENABLE),
    DiagEntry(0x4000_0000, DIAG_STATUS_BATTERY_OFFGRID_DOD),
    DiagEntry(0xFFFF_FFFF_8000_0000, DIAG_STATUS_BATTERY_SOC_ADJUST_ENABLE)
  ]

  /** The position of each channel in `DiagStatusHStates`. */
  function DiagIndex(ch: DiagChannel): (i: nat)
    ensures i < |DiagStatusHStates| && DiagStatusHStates[i].channel == ch
  {
    match ch
    case DIAG_STATUS_BATTERY_PRECHARGE_RELAY_OFF => 0
    case DIAG_STATUS_BYPASS_RELAY_STICK => 1
    case DIAG_STATUS_METER_VOLTAGE_SAMPLE_FAULT => 2
    case DIAG_STATUS_EXTERNAL_STOP_MODE_ENABLE => 3
    case DIAG_STATUS_BATTERY_OFFGRID_DOD => 4
    case DIAG_STATUS_BATTERY_SOC_ADJUST_ENABLE => 5
  }

  /** `!(value == null || (value & mask) == 0)`. */
  predicate DiagFlag(value: Option<bv64>, mask: bv64) {
    value.Some? && value.value & mask != 0
  }

  /** No channel appears twice in the table. */
  lemma DiagChannelsDistinct()
    ensures forall e :: e in DiagStatusHStates ==> e == DiagStatusHStates[DiagIndex(e.channel)]
  {
  }

  /** A map holding every table channel holds every channel. */
  lemma DiagTableCoversAllChannels(r: map<DiagChannel, bool>)
    requires forall e :: e in DiagStatusHStates ==> e.channel in r
    ensures forall ch: DiagChannel :: ch in r
  {
    forall ch: DiagChannel
      ensures ch in r
    {
      assert DiagStatusHStates[DiagIndex(ch)] in DiagStatusHStates;
    }
  }

  /** `detectDiagStatesH`: one flag per table channel, set iff the word is present and
      shares a bit with the channel's mask. */
  function DetectDiagStatesH(value: Option<bv64>): (r: map<DiagChannel, bool>)
    ensures forall ch: DiagChannel :: ch in r
    ensures forall ch: DiagChannel :: r[ch] == DiagFlag(value, DiagStatusHStates[DiagIndex(ch)].mask)
    ensures value.None? ==> forall ch: DiagChannel :: !r[ch]
  {
    var r := map e | e in DiagStatusHStates :: e.channel := DiagFlag(value, e.mask);
    DiagTableCoversAllChannels(r);
    DiagChannelsDistinct();
    r
  }

  /** The status-word bit each channel reports. */
  function DiagBit(ch: DiagChannel): (n: bv7)
    ensures n < 32
  {
    match ch
    case DIAG_STATUS_BATTERY_PRECHARGE_RELAY_OFF => 0
    case DIAG_STATUS_BYPASS_RELAY_STICK => 1
    case DIAG_STATUS_METER_VOLTAGE_SAMPLE_FAULT => 28
    case DIAG_STATUS_EXTERNAL_STOP_MODE_ENABLE => 29
    case DIAG_STATUS_BATTERY_OFFGRID_DOD => 30
    case DIAG_STATUS_BATTERY_SOC_ADJUST_ENABLE => 31
  }

  predicate BitSet(word: bv64, n: bv7)
    requires n < 64
  {
    (word >> n) & 1 == 1
  }

  lemma DiagMaskIsBit(word: bv64, ch: DiagChannel)
    requires word < 0x1_0000_0000
    ensures (word & DiagStatusHStates[DiagIndex(ch)].mask != 0) <==> BitSet(word, DiagBit(ch))
  {
    match ch
    case DIAG_STATUS_BATTERY_PRECHARGE_RELAY_OFF =>
      assert (word & 0x1 != 0) <==> (word >> 0) & 1 == 1;
    case DIAG_STATUS_BYPASS_RELAY_STICK =>
      assert (word & 0x2 != 0) <==> (word >> 1) & 1 == 1;
    case DIAG_STATUS_METER_VOLTAGE_SAMPLE_FAULT =>
      assert (word & 0x1000_0000 != 0) <==> (word >> 28) & 1 == 1;
    case DIAG_STATUS_EXTERNAL_STOP_MODE_ENABLE =>
      assert (word & 0x2000_0000 != 0) <==> (word >> 29) & 1 == 1;
    case DIAG_STATUS_BATTERY_OFFGRID_DOD =>
      assert (word & 0x4000_0000 != 0) <==> (word >> 30) & 1 == 1;
    case DIAG_STATUS_BATTERY_SOC_ADJUST_ENABLE =>
      assert (word & 0xFFFF_FFFF_8000_0000 != 0) <==> (word >> 31) & 1 == 1;
  }

  /** For every 32-bit register word, each flag is exactly its bit. */
  lemma DiagStatesHAreBits(word: bv64)
    requires word < 0x1_0000_0000
    ensures forall ch: DiagChannel :: DetectDiagStatesH(Some(word))[ch] <==> BitSet(word, DiagBit(ch))
  {
    forall ch: DiagChannel
      ensures DetectDiagStatesH(Some(word))[ch] <==> BitSet(word, DiagBit(ch))
    {
      DiagFlagIsBit(word, ch);
    }
  }

  /** One channel of `DiagStatesHAreBits`. */
  lemma DiagFlagIsBit(word: bv64, ch: DiagChannel)
    requires word < 0x1_0000_0000
    ensures DetectDiagStatesH(Some(word))[ch] <==> BitSet(word, DiagBit(ch))
  {
    var r := DetectDiagStatesH(Some(word));
    assert r[ch] == DiagFlag(Some(word), DiagStatusHStates[DiagIndex(ch)].mask);
    DiagMaskIsBit(word, ch);
  }

  /** The sign-extended mask also catches bits above bit 31 of a `long`. */
  lemma SocAdjustMaskIsSignExtended()
    ensures DetectDiagStatesH(Some(0x1_0000_0000))[DIAG_STATUS_BATTERY_SOC_ADJUST_ENABLE]
    ensures !DetectDiagStatesH(Some(0x1_0000_0000))[DIAG_STATUS_BATTERY_OFFGRID_DOD]
  {
    assert DiagStatusHStates[5] in DiagStatusHStates;
    assert DiagStatusHStates[4] in DiagStatusHStates;
  }

  /** The decoded words of the component's unit test. */
  lemma DiagStatesHExamples()
    ensures var r := DetectDiagStatesH(Some(0xC000_0001));
            r[DIAG_STATUS_BATTERY_PRECHARGE_RELAY_OFF] && r[DIAG_STATUS_BATTERY_OFFGRID_DOD]
            && r[DIAG_STATUS_BATTERY_SOC_ADJUST_ENABLE] && !r[DIAG_STATUS_BYPASS_RELAY_STICK]
            && !r[DIAG_STATUS_METER_VOLTAGE_SAMPLE_FAULT] && !r[DIAG_STATUS_EXTERNAL_STOP_MODE_ENABLE]
    ensures var r := DetectDiagStatesH(Some(0xC000_5701));
            r[DIAG_STATUS_BATTERY_PRECHARGE_RELAY_OFF] && r[DIAG_STATUS_BATTERY_OFFGRID_DOD]
            && r[DIAG_STATUS_BATTERY_SOC_ADJUST_ENABLE] && !r[DIAG_STATUS_BYPASS_RELAY_STICK]
            && !r[DIAG_STATUS_METER_VOLTAGE_SAMPLE_FAULT] && !r[DIAG_STATUS_EXTERNAL_STOP_MODE_ENABLE]
    ensures var r := DetectDiagStatesH(Some(0x9000_0003));
            r[DIAG_STATUS_BATTERY_PRECHARGE_RELAY_OFF] && !r[DIAG_STATUS_BATTERY_OFFGRID_DOD]
            && r[DIAG_STATUS_BATTERY_SOC_ADJUST_ENABLE] && r[DIAG_STATUS_BYPASS_RELAY_STICK]
            && r[DIAG_STATUS_METER_VOLTAGE_SAMPLE_FAULT] && !r[DIAG_STATUS_EXTERNAL_STOP_MODE_ENABLE]
  {
    DiagStatesHAreBits(0xC000_0001);
    DiagStatesHAreBits(0xC000_5701);
    DiagStatesHAreBits(0x9000_0003);
  }

  // ---------------------------------------------------------------------------
  // Device type
  // ---------------------------------------------------------------------------

  datatype DeyeType =
    | UNDEFINED
    | DEYE_10K_BT | DEYE_8K_BT | DEYE_5K_BT
    | DEYE_10K_ET | DEYE_8K_ET | DEYE_5K_ET
    | FENECON_FHI_10_DAH | FENECON_FHI_20_DAH | FENECON_FHI_29_9_DAH

  /** The model string the inverter reports in its type register, for the types that
      report one. */
  function TypeRegisterString(t: DeyeType): Option<string> {
    match t
    case DEYE_10K_BT => Some("GW10K-BT")
    case DEYE_8K_BT => Some("GW8K-BT")
    case DEYE_5K_BT => Some("GW5K-BT")
    case DEYE_10K_ET => Some("GW10K-ET")
    case DEYE_8K_ET => Some("GW8K-ET")
    case DEYE_5K_ET => Some("GW5K-ET")
    case FENECON_FHI_10_DAH => Some("FHI-10-DAH")
    case _ => None
  }

  /** `getDeyeTypeFromStringValue`: the type whose model string this is; UNDEFINED for
      null, the empty string and every other string. */
  function GetDeyeTypeFromStringValue(stringValue: Option<string>): (r: DeyeType)
    ensures r != DeyeType.UNDEFINED ==> TypeRegisterString(r) == stringValue
    ensures forall t: DeyeType :: TypeRegisterString(t).Some? && TypeRegisterString(t) == stringValue ==> r == t
  {
    if stringValue.None? || |stringValue.value| == 0 then DeyeType.UNDEFINED
    else
      var v := stringValue.value;
      if v == "GW10K-BT" then DEYE_10K_BT
      else if v == "GW8K-BT" then DEYE_8K_BT
      else if v == "GW5K-BT" then DEYE_5K_BT
      else if v == "GW10K-ET" then DEYE_10K_ET
      else if v == "GW8K-ET" then DEYE_8K_ET
      else if v == "GW5K-ET" then DEYE_5K_ET
      else if v == "FHI-10-DAH" then FENECON_FHI_10_DAH
      else DeyeType.UNDEFINED
  }

  /** What a type's serial-number filter does with a serial number; a filter that
      throws is logged and counts as no match. */
  datatype FilterOutcome = Accepts | Rejects | Throws

  /** The first of `types` whose filter accepts `serialNr`, UNDEFINED if none does. */
  function FirstAccepting(types: seq<DeyeType>, filter: (DeyeType, string) -> FilterOutcome,
                          serialNr: string): (r: DeyeType)
    ensures (forall i :: 0 <= i < |types| ==> filter(types[i], serialNr) != Accepts) ==> r == DeyeType.UNDEFINED
    ensures (exists i :: 0 <= i < |types| && filter(types[i], serialNr) == Accepts) ==>
              exists i :: 0 <= i < |types| && types[i] == r && filter(r, serialNr) == Accepts
                          && forall j :: 0 <= j < i ==> filter(types[j], serialNr) != Accepts
  {
    if types == [] then DeyeType.UNDEFINED
    else if filter(types[0], serialNr) == Accepts then types[0]
    else
      var r := FirstAccepting(types[1..], filter, serialNr);
      assert forall i :: 1 <= i < |types| ==> types[i] == types[1..][i - 1];
      r
  }

  /** `getDeyeTypeFromSerialNr` over the types in declaration order `declared` and
      their serial-number filters. */
  function GetDeyeTypeFromSerialNr(serialNr: Option<string>, declared: seq<DeyeType>,
                                   filter: (DeyeType, string) -> FilterOutcome): (r: DeyeType)
    ensures serialNr.None? || |serialNr.value| == 0 ==> r == DeyeType.UNDEFINED
    ensures r != DeyeType.UNDEFINED ==> r in declared && filter(r, serialNr.value) == Accepts
    ensures serialNr.Some? && |serialNr.value| > 0 && (exists i :: 0 <= i < |declared| && filter(declared[i], serialNr.value) == Accepts) ==>
              exists i :: 0 <= i < |declared| && declared[i] == r && filter(r, serialNr.value) == Accepts
                          && forall j :: 0 <= j < i ==> filter(declared[j], serialNr.value) != Accepts
  {
    if serialNr.None? || |serialNr.value| == 0 then DeyeType.UNDEFINED
    else FirstAccepting(declared, filter, serialNr.value)
  }

  // ---------------------------------------------------------------------------
  // Grid mode register and firmware version
  // ---------------------------------------------------------------------------

  /** The register value that stands for each grid mode on this device family. */
  function GridModeRegisterCode(m: GridMode): int {
    match m
    case UNDEFINED => 0
    case ON_GRID => 1
    case OFF_GRID => 2
  }

  /** Grid-mode register converter: 1 is on-grid, 2 off-grid, anything else
      (0, other values, null) undefined. */
  function GridModeFromRegister(value: Option<int>): (r: GridMode)
    ensures r != GridMode.UNDEFINED ==> value == Some(GridModeRegisterCode(r))
    ensures forall m: GridMode :: m != GridMode.UNDEFINED && value == Some(GridModeRegisterCode(m)) ==> r == m
  {
    if value.Some? then
      match value.value
      case 0 => GridMode.UNDEFINED
      case 1 => ON_GRID
      case 2 => OFF_GRID
      case _ => GridMode.UNDEFINED
    else
      GridMode.UNDEFINED
  }

  /** The protocol extensions (5, 6, 7) added for a DSP firmware version. Version 0
      (the 30 kW model) gets all three; a null version fails on unboxing before any
      extension is added. */
  function DspExtensions(dspVersion: Option<int>): (r: set<int>)
    ensures r <= {5, 6, 7}
    ensures dspVersion == Some(0) ==> r == {5, 6, 7}
    ensures dspVersion.None? ==> r == {}
    ensures forall k :: k in {5, 6, 7} && dspVersion.Some? && dspVersion.value != 0 ==>
              (k in r <==> dspVersion.value >= k)
  {
    if dspVersion.None? then {}
    else if dspVersion.value == 0 then {5, 6, 7}
    else
      var v := dspVersion.value;
      (if v >= 5 then {5} else {}) + (if v >= 6 then {6} else {}) + (if v >= 7 then {7} else {})
  }

  /** A newer non-zero firmware never loses an extension. */
  lemma DspExtensionsMonotonic(v: int, w: int)
    requires v != 0 && w != 0 && v <= w
    ensures DspExtensions(Some(v)) <= DspExtensions(Some(w))
  {
  }

  // ---------------------------------------------------------------------------
  // The component: chargers, PV production, power and energy, AC envelope
  // ---------------------------------------------------------------------------

  /** Some charger of a non-empty set. */
  ghost function PickCharger(cs: set<ChargerId>): (c: ChargerId)
    requires cs != {}
    ensures c in cs
  {
    var c :| c in cs; c
  }

  /** The sum of the defined actual powers of the chargers in `cs`. */
  ghost function ChargerSum(cs: set<ChargerId>, power: ChargerId -> Option<int>): int
    decreases cs
  {
    if cs == {} then 0
    else
      var c := PickCharger(cs);
      power(c).OrElse(0) + ChargerSum(cs - {c}, power)
  }

  /** The sum does not depend on which charger is taken first. */
  lemma {:induction false} ChargerSumRemove(cs: set<ChargerId>, c: ChargerId, power: ChargerId -> Option<int>)
    requires c in cs
    ensures ChargerSum(cs, power) == power(c).OrElse(0) + ChargerSum(cs - {c}, power)
    decreases cs
  {
    var d := PickCharger(cs);
    if d != c {
      ChargerSumRemove(cs - {d}, c, power);
      ChargerSumRemove(cs - {c}, d, power);
      assert cs - {d} - {c} == cs - {c} - {d};
    }
  }

  /** Chargers that all report null sum to zero. */
  lemma {:induction false} ChargerSumUndefined(cs: set<ChargerId>, power: ChargerId -> Option<int>)
    requires forall c :: c in cs ==> power(c).None?
    ensures ChargerSum(cs, power) == 0
    decreases cs
  {
    if cs != {} {
      ChargerSumUndefined(cs - {PickCharger(cs)}, power);
    }
  }

  ghost predicate AnyDefined(cs: set<ChargerId>, power: ChargerId -> Option<int>) {
    exists c :: c in cs && power(c).Some?
  }

  /** The PV production of a set of chargers: null when no charger reports a power,
      else the sum of the reported powers. */
  ghost function PvProductionOf(cs: set<ChargerId>, power: ChargerId -> Option<int>): Option<int> {
    if AnyDefined(cs, power) then Some(ChargerSum(cs, power)) else None
  }

  datatype AcEnvelope = AcEnvelope(maxAcImport: Option<int>, maxAcExport: Option<int>)

  /** Max DC power from a BMS current limit and the voltage (0 when unknown). The
      product skips a null current, so a null limit yields the voltage itself. */
  function DcPower(current: Option<int>, voltage: Option<int>): (r: Option<int>)
    ensures r.Some?
    ensures current.Some? ==> r.value == current.value * voltage.OrElse(0)
    ensures current.None? ==> r.value == voltage.OrElse(0)
  {
    Multiply(current, Some(voltage.OrElse(0)))
  }

  /** `calculateMaxAcPower`: what is published as Max-AC-Import (negated) and
      Max-AC-Export. The import is the DC charge power PV does not already cover,
      never negative, the export the DC discharge power plus PV; both are capped by
      the apparent-power limit but not clipped below. */
  function MaxAcEnvelope(chargeMaxCurrent: Option<int>, dischargeMaxCurrent: Option<int>, voltage: Option<int>,
                         pvProduction: Option<int>, maxApparentPower: int): (r: AcEnvelope)
    ensures r.maxAcImport.Some? && r.maxAcExport.Some?
    ensures var pv := MaxWithZero(pvProduction);
            -r.maxAcImport.value == IntMin(IntMax(DcPower(chargeMaxCurrent, voltage).value - pv, 0), maxApparentPower)
    ensures var pv := MaxWithZero(pvProduction);
            r.maxAcExport.value == IntMin(DcPower(dischargeMaxCurrent, voltage).value + pv, maxApparentPower)
    ensures maxApparentPower >= 0 ==> -maxApparentPower <= r.maxAcImport.value <= 0
    ensures r.maxAcExport.value <= maxApparentPower
  {
    var maxDcChargePower := Multiply(chargeMaxCurrent, Some(voltage.OrElse(0)));
    var pvProduction := MaxWithZero(pvProduction);
    var maxAcImport := Subtract(maxDcChargePower, Min(maxDcChargePower, Some(pvProduction)));
    var maxAcExport := Sum(Multiply(dischargeMaxCurrent, Some(voltage.OrElse(0))), Some(pvProduction));
    var cappedImport := Min(maxAcImport, Some(maxApparentPower));
    var cappedExport := Min(maxAcExport, Some(maxApparentPower));
    AcEnvelope(Multiply(cappedImport, Some(-1)), cappedExport)
  }

  /** The state of the common Deye component that these helpers touch. */
  class DeyeComponent {
    var chargers: set<ChargerId>
    /** Channel values written by `updatePowerAndEnergyChannels` and `calculateMaxAcPower`. */
    var activePower: Option<int>
    var dcDischargePower: Option<int>
    var acEnergyFeed: EnergyFeed
    var dcEnergyFeed: EnergyFeed
    var maxAcImport: Option<int>
    var maxAcExport: Option<int>

    constructor ()
      ensures chargers == {}
      ensures activePower == None && dcDischargePower == None
      ensures maxAcImport == None && maxAcExport == None
    {
      chargers := {};
      activePower, dcDischargePower := None, None;
      acEnergyFeed, dcEnergyFeed := EnergyFeed(None, None), EnergyFeed(None, None);
      maxAcImport, maxAcExport := None, None;
    }

    method AddCharger(charger: ChargerId)
      modifies this`chargers
      ensures chargers == old(chargers) + {charger}
    {
      chargers := chargers + {charger};
    }

    method RemoveCharger(charger: ChargerId)
      modifies this`chargers
      ensures chargers == old(chargers) - {charger}
    {
      chargers := chargers - {charger};
    }

    /** `calculatePvProduction`: sums the chargers' actual power (`power`) in the set's
        iteration order, whatever that order is. */
    method CalculatePvProduction(power: ChargerId -> Option<int>) returns (production: Option<int>)
      ensures production == PvProductionOf(chargers, power)
      ensures production.None? <==> forall c :: c in chargers ==> power(c).None?
    {
      production := None;
      var remaining := chargers;
      while remaining != {}
        invariant remaining <= chargers
        invariant production == PvProductionOf(chargers - remaining, power)
        decreases remaining
      {
        var c :| c in remaining;
        ghost var done := chargers - remaining;
        ChargerSumRemove(done + {c}, c, power);
        assert done + {c} - {c} == done;
        assert AnyDefined(done + {c}, power) <==> AnyDefined(done, power) || power(c).Some?;
        if !AnyDefined(done, power) {
          ChargerSumUndefined(done, power);
        }
        production := Sum(production, power(c));
        remaining := remaining - {c};
        assert chargers - remaining == done + {c};
      }
      assert chargers - remaining == chargers;
    }

    /** `updatePowerAndEnergyChannels`: AC power is PV production plus the battery's
        DC discharge power; each is split by sign into the energy counters. */
    method UpdatePowerAndEnergyChannels(power: ChargerId -> Option<int>, pBattery1: Option<int>)
      modifies this`activePower, this`dcDischargePower, this`acEnergyFeed, this`dcEnergyFeed
      ensures activePower == Sum(PvProductionOf(chargers, power), pBattery1)
      ensures acEnergyFeed == SplitBySign(activePower)
      ensures dcDischargePower == pBattery1
      ensures dcEnergyFeed == SplitBySign(pBattery1)
    {
      var productionPower := CalculatePvProduction(power);
      var dcPower := pBattery1;
      var acActivePower := Sum(productionPower, dcPower);
      activePower := acActivePower;
      acEnergyFeed := SplitBySign(acActivePower);
      dcDischargePower := dcPower;
      dcEnergyFeed := SplitBySign(dcPower);
    }

    /** `calculateMaxAcPower` from the BMS limits, the voltage and the chargers' power. */
    method CalculateMaxAcPower(maxApparentPower: int, chargeMaxCurrent: Option<int>,
                               dischargeMaxCurrent: Option<int>, voltage: Option<int>,
                               power: ChargerId -> Option<int>)
      modifies this`maxAcImport, this`maxAcExport
      ensures var env := MaxAcEnvelope(chargeMaxCurrent, dischargeMaxCurrent, voltage,
                                       PvProductionOf(chargers, power), maxApparentPower);
              maxAcImport == env.maxAcImport && maxAcExport == env.maxAcExport
    {
      var production := CalculatePvProduction(power);
      var env := MaxAcEnvelope(chargeMaxCurrent, dischargeMaxCurrent, voltage, production, maxApparentPower);
      maxAcImport := env.maxAcImport;
      maxAcExport := env.maxAcExport;
    }
  }
}
