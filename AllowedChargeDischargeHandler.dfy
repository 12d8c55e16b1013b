/** The allowed charge/discharge powers the Deye ESS publishes: the battery's own
    limits (rounded by the base handler, which is not part of this model) with the
    charge limit sign-inverted and PV production added to the discharge limit. */
module AllowedChargeDischargeHandler {
  import opened TypeUtils

  /** PV production as the handler sees it: AC active power minus DC discharge power,
      0 when that is unknown, and never negative. */
  function PvProductionForLimits(activePower: Option<int>, dcDischargePower: Option<int>): (pv: int)
    ensures pv >= 0
    ensures activePower.None? ==> pv == 0
    ensures activePower.Some? ==> pv == IntMax(activePower.value - dcDischargePower.OrElse(0), 0)
  {
    IntMax(Subtract(activePower, dcDischargePower).OrElse(0), 0)
  }

  /** When the inverter's AC output exceeds what the battery discharges, that excess is
      exactly the PV production used, so battery power plus PV gives back the AC power. */
  lemma PvProductionCoversAcSurplus(activePower: int, dcDischargePower: int)
    requires activePower >= dcDischargePower
    ensures dcDischargePower + PvProductionForLimits(Some(activePower), Some(dcDischargePower)) == activePower
  {
  }

  /** Published limits (negative allowed-charge, positive allowed-discharge). */
  datatype AllowedPowers = AllowedPowers(allowedChargePower: int, allowedDischargePower: int)

  /** The limits published for the rounded battery limits and the current powers. */
  function ComposeAllowedPowers(batteryAllowedChargePower: int, batteryAllowedDischargePower: int,
                                activePower: Option<int>, dcDischargePower: Option<int>): (r: AllowedPowers)
    ensures r.allowedChargePower + batteryAllowedChargePower == 0
    ensures r.allowedDischargePower >= batteryAllowedDischargePower
    ensures r.allowedDischargePower - batteryAllowedDischargePower == PvProductionForLimits(activePower, dcDischargePower)
    ensures activePower.None? ==> r.allowedDischargePower == batteryAllowedDischargePower
  {
    var pvProduction := PvProductionForLimits(activePower, dcDischargePower);
    AllowedPowers(batteryAllowedChargePower * -1, batteryAllowedDischargePower + pvProduction)
  }

  /** PV never narrows the discharge range: more AC power (for the same DC power) never
      lowers the published allowed-discharge power. */
  lemma AllowedDischargeMonotonic(charge: int, discharge: int, a1: int, a2: int, dc: Option<int>)
    requires a1 <= a2
    ensures ComposeAllowedPowers(charge, discharge, Some(a1), dc).allowedDischargePower
            <= ComposeAllowedPowers(charge, discharge, Some(a2), dc).allowedDischargePower
  {
  }

  /** The ALLOWED_CHARGE_POWER and ALLOWED_DISCHARGE_POWER channels of the parent ESS. */
  class AllowedChargeDischargeHandler {
    var allowedChargePower: Option<int>
    var allowedDischargePower: Option<int>

    constructor ()
      ensures allowedChargePower == None && allowedDischargePower == None
    {
      allowedChargePower, allowedDischargePower := None, None;
    }

    /** `accept(clockProvider)`: the rounded battery limits are inputs; the parent's
        active and DC discharge powers are read from its channels. */
    method Accept(batteryAllowedChargePower: int, batteryAllowedDischargePower: int,
                  activePower: Option<int>, dcDischargePower: Option<int>)
      modifies this
      ensures var r := ComposeAllowedPowers(batteryAllowedChargePower, batteryAllowedDischargePower,
                                            activePower, dcDischargePower);
              allowedChargePower == Some(r.allowedChargePower) && allowedDischargePower == Some(r.allowedDischargePower)
    {
      var pvProduction := PvProductionForLimits(activePower, dcDischargePower);
      allowedChargePower := Some(batteryAllowedChargePower * -1);
      allowedDischargePower := Some(batteryAllowedDischargePower + pvProduction);
    }

    /** `accept(clockProvider, battery)`: the battery is ignored and the effect is that
        of `Accept`. */
    method AcceptWithBattery<Battery>(battery: Battery, batteryAllowedChargePower: int,
                                      batteryAllowedDischargePower: int,
                                      activePower: Option<int>, dcDischargePower: Option<int>)
      modifies this
      ensures var r := ComposeAllowedPowers(batteryAllowedChargePower, batteryAllowedDischargePower,
                                            activePower, dcDischargePower);
              allowedChargePower == Some(r.allowedChargePower) && allowedDischargePower == Some(r.allowedDischargePower)
    {
      Accept(batteryAllowedChargePower, batteryAllowedDischargePower, activePower, dcDischargePower);
    }
  }
}
