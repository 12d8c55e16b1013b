/** The dispatch arbitrator of the Deye driver: turns an active-power set-point and a
    control mode into the EMS power mode and power set-point written to the inverter
    firmware, and recomputes the two mode-compatibility warnings on every call.

    Powers are in watts; a positive AC power means the inverter feeds power out
    (discharge), a negative one that it takes power in (charge).
 */
module ApplyPowerHandler {
  import opened TypeUtils

  /** How the driver controls the inverter (configuration). */
  datatype ControlMode = INTERNAL | SMART | REMOTE

  /** The firmware's own operating mode selector (EMS_POWER_MODE). */
  datatype EmsPowerMode = AUTO | CHARGE_BAT | DISCHARGE_BAT

  /** Whether the firmware sees a smart meter at the grid connection point. */
  datatype MeterCommunicateStatus = UNDEFINED | OK | NG

  /** The pair written to EMS_POWER_MODE and EMS_POWER_SET. */
  datatype Command = Command(mode: EmsPowerMode, powerSet: int)

  /** The firmware's own AUTO mode with no set-point. */
  const AutoCommand: Command := Command(AUTO, 0)

  /** The AC power the inverter delivers when the firmware executes `c` while the PV
      strings produce `pv`: a charge command moves `powerSet` watts of the PV power
      into the battery, a discharge command adds `powerSet` watts from the battery.
      In AUTO the firmware decides by itself, so nothing is promised. */
  function AcOutput(c: Command, pv: int): Option<int> {
    match c.mode
    case AUTO => None
    case CHARGE_BAT => Some(pv - c.powerSet)
    case DISCHARGE_BAT => Some(pv + c.powerSet)
  }

  /** The remote rule: the forced charge/discharge command that makes the inverter
      deliver exactly the set-point `s` with PV production `pv`. Exact (unbounded)
      arithmetic; `RemoteRuleJava` is the 32-bit version as written. */
  function RemoteRule(s: int, pv: int): (r: Command)
    ensures r.mode != AUTO
    ensures AcOutput(r, pv) == Some(s)
    ensures pv >= 0 ==> r.powerSet >= 0
    ensures pv >= 0 ==> (r.mode == CHARGE_BAT <==> s <= pv)
  {
    if s < 0 then
      Command(CHARGE_BAT, s * -1 + pv)
    else if pv >= s then
      Command(CHARGE_BAT, pv - s)
    else
      Command(DISCHARGE_BAT, s - pv)
  }

  /** The remote rule is the only non-AUTO command with a non-negative set-point that
      delivers `s`, once a zero set-point is written as CHARGE_BAT. */
  lemma RemoteRuleUnique(s: int, pv: int, c: Command)
    requires pv >= 0
    requires c.mode != AUTO && c.powerSet >= 0
    requires c.powerSet == 0 ==> c.mode == CHARGE_BAT
    requires AcOutput(c, pv) == Some(s)
    ensures c == RemoteRule(s, pv)
  {
    match c.mode
    case CHARGE_BAT =>
      assert pv - c.powerSet == s;
    case DISCHARGE_BAT =>
      assert pv + c.powerSet == s;
  }

  /** The surplus-feed-in difference, or None where the source keeps the
      `Integer.MAX_VALUE` sentinel ("not applicable"). */
  function SurplusDifference(s: int, surplus: Option<int>): (d: Option<int>)
    ensures d.Some? <==> surplus.Some? && surplus.value > 0 && s != 0
    ensures d.Some? ==> s == surplus.value + d.value
  {
    if surplus.Some? && surplus.value > 0 && s != 0 then Some(s - surplus.value) else None
  }

  /** The rounding guard `d > -1 && d < 1`. */
  predicate InRoundingWindow(d: int) {
    d > -1 && d < 1
  }

  /** Over integers the rounding window holds exactly one value. */
  lemma RoundingWindowIsZero(d: int)
    ensures InRoundingWindow(d) <==> d == 0
  {
  }

  /** SMART mode: leave the firmware in AUTO when it already balances the grid to the
      set-point or when the set-point is the surplus feed-in target; otherwise use the
      remote rule. */
  function SmartMode(s: int, pv: int, grid: int, ess: int, surplus: Option<int>): (r: Command)
    ensures r.mode == AUTO <==>
              s == grid + ess || (surplus.Some? && surplus.value > 0 && s != 0 && s == surplus.value)
    ensures r.mode == AUTO ==> r == AutoCommand
    ensures r.mode != AUTO ==> r == RemoteRule(s, pv)
  {
    var diffSurplus := SurplusDifference(s, surplus);
    var diffBalancing := s - (grid + ess);
    if InRoundingWindow(diffBalancing) || (diffSurplus.Some? && InRoundingWindow(diffSurplus.value)) then
      AutoCommand
    else
      RemoteRule(s, pv)
  }

  /** `calculate`: the command once all four telemetry values are defined. The AC
      import/export limits are handed to SMART mode in the source but not used there. */
  function Calculate(mode: ControlMode, s: int, pv: int, grid: int, ess: int, surplus: Option<int>): (r: Command)
    ensures mode == INTERNAL ==> r == AutoCommand
    ensures mode == REMOTE ==> r == RemoteRule(s, pv)
    ensures mode == SMART ==> r == SmartMode(s, pv, grid, ess, surplus)
    ensures r.mode != AUTO ==> AcOutput(r, pv) == Some(s)
  {
    match mode
    case INTERNAL => AutoCommand
    case SMART => SmartMode(s, pv, grid, ess, surplus)
    case REMOTE => RemoteRule(s, pv)
  }

  /** The command `apply` writes: AUTO with 0 as soon as one of the four telemetry
      values is undefined, else `Calculate` with the PV production clamped to >= 0. */
  function Decide(s: int, mode: ControlMode, pvProduction: Option<int>,
                  grid: Option<int>, ess: Option<int>, maxAcImport: Option<int>, maxAcExport: Option<int>,
                  surplus: Option<int>): (r: Command)
    ensures grid.None? || ess.None? || maxAcImport.None? || maxAcExport.None? ==> r == AutoCommand
    ensures mode == INTERNAL ==> r == AutoCommand
    ensures r.mode == AUTO ==> r.powerSet == 0
    ensures r.powerSet >= 0
    ensures r.mode != AUTO ==> AcOutput(r, MaxWithZero(pvProduction)) == Some(s)
    ensures r.mode != AUTO ==> mode != INTERNAL && grid.Some? && ess.Some? && maxAcImport.Some? && maxAcExport.Some?
    ensures r.mode != AUTO ==> r == RemoteRule(s, MaxWithZero(pvProduction))
    ensures grid.Some? && ess.Some? && maxAcImport.Some? && maxAcExport.Some? && mode != INTERNAL ==>
              (r.mode == AUTO <==>
                 mode == SMART && (s == grid.value + ess.value
                                   || (surplus.Some? && surplus.value > 0 && s != 0 && s == surplus.value)))
  {
    var pv := MaxWithZero(pvProduction);
    if grid.Some? && ess.Some? && maxAcImport.Some? && maxAcExport.Some? then
      Calculate(mode, s, pv, grid.value, ess.value, surplus)
    else
      AutoCommand
  }

  /** SMART_MODE_NOT_WORKING_WITH_PID_FILTER. */
  predicate PidWarning(mode: ControlMode, pidEnabled: bool) {
    mode == SMART && pidEnabled
  }

  /** NO_SMART_METER_DETECTED: the meter is reported missing while the mode needs it. */
  predicate NoSmartMeterWarning(status: MeterCommunicateStatus, mode: ControlMode) {
    status == NG && (mode == INTERNAL || mode == SMART)
  }

  /** The channels of the Deye component that `apply` writes. */
  class DeyeChannels {
    var smartModeNotWorkingWithPidFilter: bool
    var noSmartMeterDetected: bool
    /** Next write values of EMS_POWER_SET and EMS_POWER_MODE. */
    var emsPowerSet: Option<int>
    var emsPowerMode: Option<EmsPowerMode>

    constructor ()
      ensures !smartModeNotWorkingWithPidFilter && !noSmartMeterDetected
      ensures emsPowerSet == None && emsPowerMode == None
    {
      smartModeNotWorkingWithPidFilter := false;
      noSmartMeterDetected := false;
      emsPowerSet := None;
      emsPowerMode := None;
    }

    /** `apply`: update both warnings, then write the command. The warnings depend
        only on the mode, the PID flag and the meter status, never on their previous
        values or on the command. `pvProduction` is the chargers' summed actual power
        and `surplus` the surplus feed-in target, both read from the component. */
    method Apply(s: int, mode: ControlMode, grid: Option<int>, ess: Option<int>,
                 maxAcImport: Option<int>, maxAcExport: Option<int>, pidEnabled: bool,
                 meterStatus: MeterCommunicateStatus, pvProduction: Option<int>, surplus: Option<int>)
      modifies this
      ensures smartModeNotWorkingWithPidFilter == PidWarning(mode, pidEnabled)
      ensures noSmartMeterDetected == NoSmartMeterWarning(meterStatus, mode)
      ensures var c := Decide(s, mode, pvProduction, grid, ess, maxAcImport, maxAcExport, surplus);
              emsPowerSet == Some(c.powerSet) && emsPowerMode == Some(c.mode)
    {
      CheckControlModeWithActivePid(mode, pidEnabled);
      CheckControlModeRequiresSmartMeter(mode, meterStatus);
      var pv := MaxWithZero(pvProduction);
      var command: Command;
      if grid.Some? && ess.Some? && maxAcImport.Some? && maxAcExport.Some? {
        command := Calculate(mode, s, pv, grid.value, ess.value, surplus);
      } else {
        command := AutoCommand;
      }
      emsPowerSet := Some(command.powerSet);
      emsPowerMode := Some(command.mode);
    }

    method CheckControlModeWithActivePid(mode: ControlMode, pidEnabled: bool)
      modifies this`smartModeNotWorkingWithPidFilter
      ensures smartModeNotWorkingWithPidFilter == PidWarning(mode, pidEnabled)
    {
      var enableWarning := false;
      if mode == SMART && pidEnabled {
        enableWarning := true;
      }
      smartModeNotWorkingWithPidFilter := enableWarning;
    }

    method CheckControlModeRequiresSmartMeter(mode: ControlMode, status: MeterCommunicateStatus)
      modifies this`noSmartMeterDetected
      ensures noSmartMeterDetected == NoSmartMeterWarning(status, mode)
    {
      var enableWarning := false;
      match status {
        case UNDEFINED =>
          enableWarning := false;
        case OK =>
          enableWarning := false;
        case NG =>
          match mode {
            case REMOTE => enableWarning := false;
            case INTERNAL => enableWarning := true;
            case SMART => enableWarning := true;
          }
      }
      noSmartMeterDetected := enableWarning;
    }
  }

  // ---------------------------------------------------------------------------
  // The arbitration as written, over 32-bit Java `int`s.
  // ---------------------------------------------------------------------------

  /** `handleRemoteMode` with Java's wrapping `int` arithmetic. */
  function RemoteRuleJava(s: Int32, pv: Int32): (r: Command)
    ensures r.mode != AUTO && IsInt32(r.powerSet)
  {
    if s < 0 then
      Command(CHARGE_BAT, Wrap32(Wrap32(s * -1) + pv))
    else if pv >= s then
      Command(CHARGE_BAT, Wrap32(pv - s))
    else
      Command(DISCHARGE_BAT, Wrap32(s - pv))
  }

  /** The rounding guard of `handleSmartMode` as written: wrapping sums and the
      `Integer.MAX_VALUE` sentinel. */
  predicate SmartGuardJava(s: Int32, grid: Int32, ess: Int32, surplus: Option<Int32>) {
    var diffSurplus: Int32 :=
      if surplus.Some? && surplus.value > 0 && s != 0 then Wrap32(s - surplus.value) else INT_MAX;
    var diffBalancing := Wrap32(s - Wrap32(grid + ess));
    (diffBalancing > -1 && diffBalancing < 1) || (diffSurplus > -1 && diffSurplus < 1)
  }

  function SmartModeJava(s: Int32, pv: Int32, grid: Int32, ess: Int32, surplus: Option<Int32>): (r: Command)
    ensures r.mode == AUTO <==> SmartGuardJava(s, grid, ess, surplus)
  {
    if SmartGuardJava(s, grid, ess, surplus) then AutoCommand else RemoteRuleJava(s, pv)
  }

  /** The set-point Integer.MIN_VALUE makes `s * -1 + pv` wrap: the charge command
      written has a negative power set-point. */
  lemma RemoteRuleJavaOverflow()
    ensures RemoteRuleJava(INT_MIN, 0) == Command(CHARGE_BAT, INT_MIN)
    ensures RemoteRule(INT_MIN, 0) == Command(CHARGE_BAT, 0x8000_0000)
  {
  }

  /** `gridActivePower + essActivePower` wraps: SMART mode stays in AUTO although the
      set-point is 2^32 watts away from what the firmware balances to. */
  lemma SmartGuardJavaOverflow()
    ensures SmartGuardJava(INT_MIN, INT_MAX, 1, None)
    ensures SmartMode(INT_MIN, 0, INT_MAX, 1, None) == Command(CHARGE_BAT, 0x8000_0000)
  {
  }

  /** Without overflow the remote rule as written is the exact one. */
  lemma RemoteRuleJavaAgrees(s: Int32, pv: Int32)
    requires pv >= 0
    requires s < 0 ==> pv - s <= INT_MAX
    ensures RemoteRuleJava(s, pv) == RemoteRule(s, pv)
  {
  }

  /** Within +-2^30 watts, SMART mode as written is the exact one. */
  lemma SmartModeJavaAgrees(s: Int32, pv: Int32, grid: Int32, ess: Int32, surplus: Option<Int32>)
    requires -0x4000_0000 <= s < 0x4000_0000 && 0 <= pv < 0x4000_0000
    requires -0x2000_0000 <= grid < 0x2000_0000 && -0x2000_0000 <= ess < 0x2000_0000
    requires surplus.Some? ==> -0x4000_0000 <= surplus.value < 0x4000_0000
    ensures SmartModeJava(s, pv, grid, ess, surplus) == SmartMode(s, pv, grid, ess, surplus)
  {
    RemoteRuleJavaAgrees(s, pv);
  }
}
