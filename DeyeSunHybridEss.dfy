/** The ESS variant of the Deye Sun Hybrid component: the same read-only gating,
    START throttle, over-temperature limit and energy split as the root component,
    and a fixed grid-load-off power written with every set-point. It has no
    grid-mode converter of its own. */
module DeyeSunHybridEss {
  import opened TypeUtils
  import opened EssCommon

  /** The grid-load-off power written with every accepted set-point. */
  const GRID_LOAD_OFF_POWER: int := 93

  class DeyeSunHybridImpl {
    /** Configuration. */
    const readOnlyMode: bool
    const powerLimitOnOvertemperature: int

    var chargers: seq<ChargerId>

    /** Written channels. */
    var setActivePower: Option<int>
    var setReactivePower: Option<int>
    var setGridLoadOffPower: Option<int>
    var setWorkState: Option<SetWorkState>
    var pvPowerLimit: map<ChargerId, int>

    /** Constraints handed to the power solver. */
    var addedConstraints: seq<Constraint>

    /** Time (in seconds) of the last START write, null before the first. */
    var lastDefineWorkState: Option<int>
    /** Every START write so far. */
    ghost var startWrites: seq<int>

    /** Values fed to the energy calculators and the DC discharge power channel. */
    var acEnergyFeed: EnergyFeed
    var dcDischargePower: Option<int>
    var dcEnergyFeed: EnergyFeed

    ghost predicate Valid()
      reads this
    {
      ThrottleState(lastDefineWorkState, startWrites)
    }

    constructor (readOnlyMode: bool, powerLimitOnOvertemperature: int)
      ensures Valid()
      ensures this.readOnlyMode == readOnlyMode
      ensures this.powerLimitOnOvertemperature == powerLimitOnOvertemperature
      ensures chargers == [] && addedConstraints == [] && pvPowerLimit == map[]
      ensures setActivePower == None && setReactivePower == None && setGridLoadOffPower == None
      ensures setWorkState == None
      ensures lastDefineWorkState == None && startWrites == []
    {
      this.readOnlyMode := readOnlyMode;
      this.powerLimitOnOvertemperature := powerLimitOnOvertemperature;
      chargers := [];
      setActivePower, setReactivePower, setWorkState := None, None, None;
      setGridLoadOffPower := None;
      pvPowerLimit := map[];
      addedConstraints := [];
      lastDefineWorkState := None;
      startWrites := [];
      acEnergyFeed, dcEnergyFeed := EnergyFeed(None, None), EnergyFeed(None, None);
      dcDischargePower := None;
    }

    /** `applyPower`: nothing in read-only mode, else the two set-points and the fixed
        grid-load-off power. */
    method ApplyPower(activePower: int, reactivePower: int)
      modifies this`setActivePower, this`setReactivePower, this`setGridLoadOffPower
      ensures readOnlyMode ==> setActivePower == old(setActivePower) && setReactivePower == old(setReactivePower)
                               && setGridLoadOffPower == old(setGridLoadOffPower)
      ensures !readOnlyMode ==> setActivePower == Some(activePower) && setReactivePower == Some(reactivePower)
                                && setGridLoadOffPower == Some(GRID_LOAD_OFF_POWER)
    {
      if readOnlyMode {
        return;
      }
      setActivePower := Some(activePower);
      setReactivePower := Some(reactivePower);
      setGridLoadOffPower := Some(GRID_LOAD_OFF_POWER);
    }

    /** `defineWorkState` at time `now`: START is written on the first call and then
        only once more than a minute has passed since the last write; the timestamp
        moves only with a write. */
    method DefineWorkState(now: int)
      requires Valid()
      modifies this`lastDefineWorkState, this`startWrites, this`setWorkState
      ensures Valid()
      ensures StartDue(old(lastDefineWorkState), now) ==>
                lastDefineWorkState == Some(now) && setWorkState == Some(START) && startWrites == old(startWrites) + [now]
      ensures !StartDue(old(lastDefineWorkState), now) ==>
                lastDefineWorkState == old(lastDefineWorkState) && setWorkState == old(setWorkState)
                && startWrites == old(startWrites)
    {
      if lastDefineWorkState.None? || now - ONE_MINUTE > lastDefineWorkState.value {
        ThrottleStep(lastDefineWorkState, startWrites, now);
        lastDefineWorkState := Some(now);
        startWrites := startWrites + [now];
        setWorkState := Some(START);
      }
    }

    /** `isManaged`: managed exactly when not read-only. This and `GetStaticConstraints`
        are written out in both ESS components, so both classes delegate to the shared
        definitions in `EssCommon`. */
    function IsManaged(): (r: bool)
      ensures r == !readOnlyMode
      ensures r <==> exists p: int :: p != 0 && Admits(StaticConstraints(readOnlyMode), p, 0)
    {
      EssCommon.IsManaged(readOnlyMode)
    }

    /** `getStaticConstraints`: both powers pinned to zero in read-only mode, else the
        reactive power kept within [-10000, 10000]. */
    function GetStaticConstraints(): (cs: seq<Constraint>)
      ensures forall p: int, q: int {:trigger Admits(cs, p, q)} ::
                Admits(cs, p, q) <==>
                  if readOnlyMode then p == 0 && q == 0 else -10000 <= q <= 10000
    {
      StaticConstraints(readOnlyMode)
    }

    method AddCharger(charger: ChargerId)
      modifies this`chargers
      ensures chargers == old(chargers) + [charger]
    {
      chargers := chargers + [charger];
    }

    method RemoveCharger(charger: ChargerId)
      modifies this`chargers
      ensures chargers == RemoveFirst(old(chargers), charger)
    {
      chargers := RemoveFirst(chargers, charger);
    }

    /** `applyPowerLimitOnPowerDecreaseCausedByOvertemperatureError` for the current
        over-temperature state: with a non-zero limit L and the state set, active power
        is bounded to [-L, L] and the first charger (if any) gets PV limit L; otherwise
        nothing changes. */
    method ApplyPowerLimitOnOvertemperature(overTemperature: Option<bool>)
      modifies this`addedConstraints, this`pvPowerLimit
      ensures addedConstraints == old(addedConstraints) + OvertemperatureConstraints(powerLimitOnOvertemperature, overTemperature)
      ensures pvPowerLimit ==
                if powerLimitOnOvertemperature != 0 && overTemperature.OrElse(false) && |chargers| > 0
                then old(pvPowerLimit)[chargers[0] := powerLimitOnOvertemperature]
                else old(pvPowerLimit)
    {
      if powerLimitOnOvertemperature != 0 {
        if overTemperature.OrElse(false) {
          addedConstraints := addedConstraints + OvertemperatureConstraints(powerLimitOnOvertemperature, overTemperature);
          if |chargers| > 0 {
            pvPowerLimit := pvPowerLimit[chargers[0] := powerLimitOnOvertemperature];
          }
        }
      }
    }

    /** `calculateEnergy` for the AC active power and the chargers' actual powers: the AC
        power is split by sign, the DC discharge power is the AC power less every
        charger's power, and it is split the same way. */
    method CalculateEnergy(acActivePower: Option<int>, actualPower: ChargerId -> Option<int>)
      modifies this`acEnergyFeed, this`dcDischargePower, this`dcEnergyFeed
      ensures acEnergyFeed == SplitBySign(acActivePower)
      ensures dcDischargePower == DcDischargeOf(acActivePower, chargers, actualPower)
      ensures dcEnergyFeed == SplitBySign(dcDischargePower)
    {
      acEnergyFeed := SplitBySign(acActivePower);
      var dc := SubtractChargerPowers(acActivePower, chargers, actualPower);
      dcDischargePower := dc;
      dcEnergyFeed := SplitBySign(dc);
    }
  }
}
