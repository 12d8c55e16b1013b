/** The root Deye Sun Hybrid ESS component: set-point writes gated by read-only
    mode, its own grid-mode register converter, the once-a-minute START write,
    the over-temperature limit and the energy split over its chargers list. */
module DeyeSunHybrid {
  import opened TypeUtils
  import opened EssCommon
  import AbstractDeye

  /** This component's grid-mode register converter: 1 is off-grid, 2 on-grid, anything
      else (null included) undefined. */
  function GridModeFromRegister(value: Option<int>): (r: GridMode)
    ensures r == OFF_GRID <==> value == Some(1)
    ensures r == ON_GRID <==> value == Some(2)
    ensures r == UNDEFINED <==> value.None? || (value.value != 1 && value.value != 2)
  {
    if value.Some? then
      match value.value
      case 1 => OFF_GRID
      case 2 => ON_GRID
      case _ => UNDEFINED
    else
      UNDEFINED
  }

  /** On the codes both converters know (1 and 2) this converter and the common base
      component's converter give opposite grid modes; elsewhere both say undefined. */
  lemma GridModeConvertersDisagree(value: Option<int>)
    ensures value == Some(1) || value == Some(2) ==>
              GridModeFromRegister(value) != UNDEFINED && AbstractDeye.GridModeFromRegister(value) != UNDEFINED
              && GridModeFromRegister(value) != AbstractDeye.GridModeFromRegister(value)
    ensures value != Some(1) && value != Some(2) ==>
              GridModeFromRegister(value) == UNDEFINED && AbstractDeye.GridModeFromRegister(value) == UNDEFINED
  {
    if value.Some? && value.value != 1 && value.value != 2 {
      assert AbstractDeye.GridModeRegisterCode(ON_GRID) == 1;
      assert AbstractDeye.GridModeRegisterCode(OFF_GRID) == 2;
    }
  }

  class DeyeSunHybridImpl {
    /** Configuration. */
    const readOnlyMode: bool
    const powerLimitOnOvertemperature: int

    var chargers: seq<ChargerId>

    /** Written channels. */
    var setActivePower: Option<int>
    var setReactivePower: Option<int>
    var setWorkState: Option<SetWorkState>
    var pvPowerLimit: map<ChargerId, int>

    /** Constraints handed to the power solver. */
    var addedConstraints: seq<Constraint>

    /** Time (in seconds) of the last START write, null before the first. */
    var lastDefineWorkState: Option<int>
    /** Every START write so far. */
    ghost var startWrites: seq<int>

    /** Values fed to the energy calculators and the DC discharge power channel. */
    var acEnergyFeed: EnergyFeed
    var dcDischargePower: Option<int>
    var dcEnergyFeed: EnergyFeed

    ghost predicate Valid()
      reads this
    {
      ThrottleState(lastDefineWorkState, startWrites)
    }

    constructor (readOnlyMode: bool, powerLimitOnOvertemperature: int)
      ensures Valid()
      ensures this.readOnlyMode == readOnlyMode
      ensures this.powerLimitOnOvertemperature == powerLimitOnOvertemperature
      ensures chargers == [] && addedConstraints == [] && pvPowerLimit == map[]
      ensures setActivePower == None && setReactivePower == None && setWorkState == None
      ensures lastDefineWorkState == None && startWrites == []
    {
      this.readOnlyMode := readOnlyMode;
      this.powerLimitOnOvertemperature := powerLimitOnOvertemperature;
      chargers := [];
      setActivePower, setReactivePower, setWorkState := None, None, None;
      pvPowerLimit := map[];
      addedConstraints := [];
      lastDefineWorkState := None;
      startWrites := [];
      acEnergyFeed, dcEnergyFeed := EnergyFeed(None, None), EnergyFeed(None, None);
      dcDischargePower := None;
    }

    /** `applyPower`: nothing in read-only mode, else exactly the two set-points. */
    method ApplyPower(activePower: int, reactivePower: int)
      modifies this`setActivePower, this`setReactivePower
      ensures readOnlyMode ==> setActivePower == old(setActivePower) && setReactivePower == old(setReactivePower)
      ensures !readOnlyMode ==> setActivePower == Some(activePower) && setReactivePower == Some(reactivePower)
    {
      if readOnlyMode {
        return;
      }
      setActivePower := Some(activePower);
      setReactivePower := Some(reactivePower);
    }

    /** `defineWorkState` at time `now`: START is written on the first call and then
        only once more than a minute has passed since the last write; the timestamp
        moves only with a write. */
    method DefineWorkState(now: int)
      requires Valid()
      modifies this`lastDefineWorkState, this`startWrites, this`setWorkState
      ensures Valid()
      ensures StartDue(old(lastDefineWorkState), now) ==>
                lastDefineWorkState == Some(now) && setWorkState == Some(START) && startWrites == old(startWrites) + [now]
      ensures !StartDue(old(lastDefineWorkState), now) ==>
                lastDefineWorkState == old(lastDefineWorkState) && setWorkState == old(setWorkState)
                && startWrites == old(startWrites)
    {
      if lastDefineWorkState.None? || now - ONE_MINUTE > lastDefineWorkState.value {
        ThrottleStep(lastDefineWorkState, startWrites, now);
        lastDefineWorkState := Some(now);
        startWrites := startWrites + [now];
        setWorkState := Some(START);
      }
    }

    /** `isManaged`: managed exactly when not read-only. This and `GetStaticConstraints`
        are written out in both ESS components, so both classes delegate to the shared
        definitions in `EssCommon`. */
    function IsManaged(): (r: bool)
      ensures r == !readOnlyMode
      ensures r <==> exists p: int :: p != 0 && Admits(StaticConstraints(readOnlyMode), p, 0)
    {
      EssCommon.IsManaged(readOnlyMode)
    }

    /** `getStaticConstraints`: both powers pinned to zero in read-only mode, else the
        reactive power kept within [-10000, 10000]. */
    function GetStaticConstraints(): (cs: seq<Constraint>)
      ensures forall p: int, q: int {:trigger Admits(cs, p, q)} ::
                Admits(cs, p, q) <==>
                  if readOnlyMode then p == 0 && q == 0 else -10000 <= q <= 10000
    {
      StaticConstraints(readOnlyMode)
    }

    method AddCharger(charger: ChargerId)
      modifies this`chargers
      ensures chargers == old(chargers) + [charger]
    {
      chargers := chargers + [charger];
    }

    method RemoveCharger(charger: ChargerId)
      modifies this`chargers
      ensures chargers == RemoveFirst(old(chargers), charger)
    {
      chargers := RemoveFirst(chargers, charger);
    }

    /** `applyPowerLimitOnPowerDecreaseCausedByOvertemperatureError` for the current
        over-temperature state: with a non-zero limit L and the state set, active power
        is bounded to [-L, L] and the first charger (if any) gets PV limit L; otherwise
        nothing changes. */
    method ApplyPowerLimitOnOvertemperature(overTemperature: Option<bool>)
      modifies this`addedConstraints, this`pvPowerLimit
      ensures addedConstraints == old(addedConstraints) + OvertemperatureConstraints(powerLimitOnOvertemperature, overTemperature)
      ensures pvPowerLimit ==
                if powerLimitOnOvertemperature != 0 && overTemperature.OrElse(false) && |chargers| > 0
                then old(pvPowerLimit)[chargers[0] := powerLimitOnOvertemperature]
                else old(pvPowerLimit)
    {
      if powerLimitOnOvertemperature != 0 {
        if overTemperature.OrElse(false) {
          addedConstraints := addedConstraints + OvertemperatureConstraints(powerLimitOnOvertemperature, overTemperature);
          if |chargers| > 0 {
            pvPowerLimit := pvPowerLimit[chargers[0] := powerLimitOnOvertemperature];
          }
        }
      }
    }

    /** `calculateEnergy` for the AC active power and the chargers' actual powers: the AC
        power is split by sign, the DC discharge power is the AC power less every
        charger's power, and it is split the same way. */
    method CalculateEnergy(acActivePower: Option<int>, actualPower: ChargerId -> Option<int>)
      modifies this`acEnergyFeed, this`dcDischargePower, this`dcEnergyFeed
      ensures acEnergyFeed == SplitBySign(acActivePower)
      ensures dcDischargePower == DcDischargeOf(acActivePower, chargers, actualPower)
      ensures dcEnergyFeed == SplitBySign(dcDischargePower)
    {
      acEnergyFeed := SplitBySign(acActivePower);
      var dc := SubtractChargerPowers(acActivePower, chargers, actualPower);
      dcDischargePower := dc;
      dcEnergyFeed := SplitBySign(dc);
    }
  }
}
