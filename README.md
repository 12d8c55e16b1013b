# Deye Sun Hybrid dispatch core, modelled in Dafny

This project models the power-dispatch decision code of the OpenEMS driver for Deye
hybrid inverters, and proves properties of that model. It covers five parts:

- **ApplyPowerHandler**: the arbitrator that turns an active-power set-point and a control mode
  (INTERNAL, SMART, REMOTE) into the firmware's EMS power mode and power set-point. It
  also recomputes two mode-compatibility warnings.
- **AbstractDeye**, the common Deye base component:
  - the diagnostic-high bitfield decoder;
  - the device-type lookups;
  - the grid-mode register converter;
  - the rule that picks which protocol extensions a DSP firmware version gets;
  - the chargers set and the PV-production sum;
  - the AC/DC power and energy split;
  - the Max-AC import/export envelope.
- **AllowedChargeDischargeHandler**: the allowed charge/discharge powers published by the ESS.
- **The two DeyeSunHybridImpl ESS components** (the root one and the `ess` one):
  - read-only gating of set-points and of the solver's static constraints;
  - the once-a-minute START write;
  - the over-temperature limit;
  - the energy split over their chargers list;
  - the root component's own grid-mode converter, whose mapping is the opposite of the base component's.
- **GridMeterStatus**: the option enum and its code lookup.

Files:

| file | module | contents |
|---|---|---|
| `TypeUtils.dfy` | `TypeUtils` | `Option` for nullable Java values, the null-skipping arithmetic helpers, Java `int` range and wrap-around |
| `ApplyPowerHandler.dfy` | `ApplyPowerHandler` | the arbitration rules (exact and as written over 32-bit `int`s) and the class `DeyeChannels` holding the written channels |
| `EssCommon.dfy` | `EssCommon` | rules the components share: sign split, charger subtraction loop, `List.remove`, solver constraints, START throttle |
| `AbstractDeye.dfy` | `AbstractDeye` | diagnostic decoder, type lookups, grid mode, DSP rule, Max-AC envelope, class `DeyeComponent` |
| `AllowedChargeDischargeHandler.dfy` | `AllowedChargeDischargeHandler` | PV clamp, limit composition, class `AllowedChargeDischargeHandler` |
| `DeyeSunHybrid.dfy` | `DeyeSunHybrid` | root component: grid-mode converter and class `DeyeSunHybridImpl` |
| `DeyeSunHybridEss.dfy` | `DeyeSunHybridEss` | `ess` component: class `DeyeSunHybridImpl` |
| `GridMeterStatus.dfy` | `GridMeterStatus` | the enum, `FromInt`, `GetUndefined` and their lemmas |

Conventions:

- **Powers** are integer watts. A positive AC power means the inverter delivers power (discharge).
- **Nullable values** (`Integer`, `Boolean`, `String`, `Long`) are `Option`.
- **The `TypeUtils` helper class** is not part of this model. The model assumes the usual OpenEMS null convention, written out in `TypeUtils.dfy`:
  - `sum`, `min`, `max` and `multiply` skip null operands and are null only when every operand is null;
  - `subtract(null, x)` is null and `subtract(a, null)` is `a`.
- **Java `int` arithmetic** is unbounded in the model, except in the two places where overflow changes a decision (see Findings). There the as-written 32-bit behaviour is modelled next to the corrected one.
- **Time** for the START throttle is an integer count of seconds, passed in as `now`.

Behaviour of the code worth knowing, which the model keeps:

- Max-AC import and export are capped only from above, by the rated power. The export is negative when the DC discharge current limit is negative. `AbstractDeye.MaxAcEnvelope` states this.
- `handleSmartMode` receives the Max-AC values but ignores them, so `ApplyPowerHandler.Calculate` does not take them.
- A null BMS current limit does not give zero DC power: `multiply(null, voltage)` skips the null operand and yields the voltage itself as a wattage. `AbstractDeye.DcPower` states this.

## Model

| member | source | states |
|---|---|---|
| ApplyPowerHandler.RemoteRule | io.openems.edge.deye.sun.hybrid/src/io/openems/edge/deye/sun/hybrid/common/ApplyPowerHandler.java:112-130 | The remote command is never AUTO. Executed with PV `pv`, it delivers exactly the set-point (PV minus the charge set-point, or PV plus the discharge set-point). With PV ≥ 0 its set-point is never negative, and it charges exactly when the set-point is at most the PV. |
| ApplyPowerHandler.RemoteRuleUnique | io.openems.edge.deye.sun.hybrid/src/io/openems/edge/deye/sun/hybrid/common/ApplyPowerHandler.java:115-129 | The remote command is the only non-AUTO command with a non-negative set-point that delivers the set-point. This holds once a zero set-point is written as CHARGE_BAT, which covers s == pv giving (CHARGE_BAT, 0). |
| ApplyPowerHandler.RoundingWindowIsZero | io.openems.edge.deye.sun.hybrid/src/io/openems/edge/deye/sun/hybrid/common/ApplyPowerHandler.java:103 | On integers the window `d > -1 && d < 1` holds exactly for 0. |
| ApplyPowerHandler.SmartMode | io.openems.edge.deye.sun.hybrid/src/io/openems/edge/deye/sun/hybrid/common/ApplyPowerHandler.java:90-110 | SMART mode gives AUTO iff the set-point equals grid + ESS power, or the surplus is defined and positive, the set-point is non-zero and the set-point equals the surplus. An AUTO result is always (AUTO, 0). Any other result is exactly the remote command. |
| ApplyPowerHandler.Calculate | io.openems.edge.deye.sun.hybrid/src/io/openems/edge/deye/sun/hybrid/common/ApplyPowerHandler.java:70-88 | INTERNAL gives (AUTO, 0), SMART gives the smart rule and REMOTE gives the remote rule. Every non-AUTO result delivers the set-point. |
| ApplyPowerHandler.Decide | io.openems.edge.deye.sun.hybrid/src/io/openems/edge/deye/sun/hybrid/common/ApplyPowerHandler.java:38-49 | The command is (AUTO, 0) when any of grid, ESS, Max-AC-import or Max-AC-export is undefined, and in INTERNAL mode. The power set-point is never negative. A non-AUTO command delivers the set-point with PV clamped to ≥ 0, and needs a non-INTERNAL mode and all four values defined; it is then exactly the remote rule for that PV. With all four values defined and the mode not INTERNAL, the command is AUTO exactly when the mode is SMART and the set-point equals grid plus ESS power or a positive surplus target (with a non-zero set-point). |
| ApplyPowerHandler.DeyeChannels.Apply | io.openems.edge.deye.sun.hybrid/src/io/openems/edge/deye/sun/hybrid/common/ApplyPowerHandler.java:30-56 | After a call the PID warning is (mode == SMART and PID enabled). The no-smart-meter warning is (meter NG and mode INTERNAL or SMART). Neither depends on earlier values or on the command. EMS_POWER_SET/EMS_POWER_MODE hold `Decide`'s command. |
| ApplyPowerHandler.DeyeChannels.CheckControlModeWithActivePid | io.openems.edge.deye.sun.hybrid/src/io/openems/edge/deye/sun/hybrid/common/ApplyPowerHandler.java:141-148 | The PID warning is set to (mode == SMART and PID enabled) on every call. |
| ApplyPowerHandler.DeyeChannels.CheckControlModeRequiresSmartMeter | io.openems.edge.deye.sun.hybrid/src/io/openems/edge/deye/sun/hybrid/common/ApplyPowerHandler.java:157-192 | The no-smart-meter warning is true iff the meter status is NG and the mode is INTERNAL or SMART. |
| ApplyPowerHandler.RemoteRuleJava | io.openems.edge.deye.sun.hybrid/src/io/openems/edge/deye/sun/hybrid/common/ApplyPowerHandler.java:112-130 | The remote rule with Java's wrapping `int` arithmetic. It is never AUTO and its set-point is a Java `int`. |
| ApplyPowerHandler.SmartModeJava | io.openems.edge.deye.sun.hybrid/src/io/openems/edge/deye/sun/hybrid/common/ApplyPowerHandler.java:95-109 | SMART mode as written: AUTO iff the wrapping rounding guard (with the `MAX_VALUE` sentinel) holds. |
| ApplyPowerHandler.RemoteRuleJavaOverflow | io.openems.edge.deye.sun.hybrid/src/io/openems/edge/deye/sun/hybrid/common/ApplyPowerHandler.java:116 | For set-point `Integer.MIN_VALUE` and PV 0, the code writes (CHARGE_BAT, `Integer.MIN_VALUE`), a negative set-point. The exact rule gives 2^31. |
| ApplyPowerHandler.SmartGuardJavaOverflow | io.openems.edge.deye.sun.hybrid/src/io/openems/edge/deye/sun/hybrid/common/ApplyPowerHandler.java:101 | For grid `MAX_VALUE`, ESS 1 and set-point `MIN_VALUE`, the wrapped sum makes SMART mode stay in AUTO. The exact rule charges with 2^31 W. |
| ApplyPowerHandler.RemoteRuleJavaAgrees | io.openems.edge.deye.sun.hybrid/src/io/openems/edge/deye/sun/hybrid/common/ApplyPowerHandler.java:112-130 | With PV ≥ 0 and no overflow of `-s + pv`, the as-written remote rule equals the exact one. |
| ApplyPowerHandler.SmartModeJavaAgrees | io.openems.edge.deye.sun.hybrid/src/io/openems/edge/deye/sun/hybrid/common/ApplyPowerHandler.java:90-110 | Within ±2^30 W for set-point, PV and surplus, and ±2^29 W for grid and ESS, SMART mode as written equals the exact one. |
| EssCommon.SplitBySign | io.openems.edge.xxxdeye.sun.hybrid/src/io/openems/edge/deye/sun/hybrid/common/AbstractDeye.java:1973-2008 | The energy feeds for a power are both null iff the power is null. Otherwise both are ≥ 0, one of them is 0, and discharge − charge is the power: p > 0 feeds (0, p) and p ≤ 0 feeds (−p, 0). |
| EssCommon.SplitBySignUnique | io.openems.edge.deye.sun.hybrid/src/io/openems/edge/deye/sun/hybrid/DeyeSunHybridImpl.java:866-879 | Any non-negative (charge, discharge) pair with one side zero whose difference is the power is the pair fed. |
| EssCommon.SubtractChargerPowers | io.openems.edge.deye.sun.hybrid/src/io/openems/edge/deye/sun/hybrid/DeyeSunHybridImpl.java:883-887 | The loop that subtracts each charger's actual power, in list order, computes the AC power minus the sum of the defined charger powers. It is null iff the AC power is null, and DC discharge plus the chargers' powers gives back the AC power. |
| EssCommon.ChargerPowerSumAppend | io.openems.edge.deye.sun.hybrid/src/io/openems/edge/deye/sun/hybrid/DeyeSunHybridImpl.java:883-887 | The chargers' power total over a concatenated list is the sum of the totals of the two parts. |
| EssCommon.IndexOf | io.openems.edge.deye.sun.hybrid/src/io/openems/edge/deye/sun/hybrid/DeyeSunHybridImpl.java:805-807 | The position `List.remove` removes at holds the charger, and the charger does not occur before it. |
| EssCommon.RemoveFirst | io.openems.edge.deye.sun.hybrid/src/io/openems/edge/deye/sun/hybrid/DeyeSunHybridImpl.java:805-807 | `List.remove(Object)` leaves the list unchanged when the charger is absent. Otherwise it drops the first occurrence and keeps the other chargers in their order (the result is the list before that position followed by the list after it), so the length drops by one and as a bag the result is the old list minus that charger. |
| EssCommon.RemoveFirstChargerPowerSum | io.openems.edge.deye.sun.hybrid/src/io/openems/edge/deye/sun/hybrid/DeyeSunHybridImpl.java:883-887 | After a charger is removed, the chargers' power total drops by exactly that charger's power. The DC discharge power computed next rises by it. |
| EssCommon.AdmitsPair | io.openems.edge.deye.sun.hybrid/src/io/openems/edge/deye/sun/hybrid/DeyeSunHybridImpl.java:776-787 | A two-constraint array admits a power pair iff both constraints do. |
| EssCommon.StaticConstraints | io.openems.edge.deye.sun.hybrid/src/io/openems/edge/deye/sun/hybrid/DeyeSunHybridImpl.java:773-788 | Two constraints. Read-only mode admits exactly active = reactive = 0. Otherwise they admit exactly the reactive powers in [−10000, 10000], with any active power. |
| EssCommon.IsManaged | io.openems.edge.deye.sun.hybrid/src/io/openems/edge/deye/sun/hybrid/DeyeSunHybridImpl.java:762-765 | The component is managed iff its static constraints admit a non-zero active power, i.e. iff it is not read-only. |
| EssCommon.OvertemperatureConstraints | io.openems.edge.deye.sun.hybrid/src/io/openems/edge/deye/sun/hybrid/DeyeSunHybridImpl.java:815-830 | Constraints are added iff the limit L ≠ 0 and the over-temperature state is true (null counts as false). They then admit exactly −L ≤ P ≤ L. |
| EssCommon.ThrottleStep | io.openems.edge.deye.sun.hybrid/src/io/openems/edge/deye/sun/hybrid/DeyeSunHybridImpl.java:746-747 | A START write allowed by the guard keeps the history of START writes more than a minute apart, with the kept timestamp being the last write. |
| EssCommon.SpacedWritesApart | io.openems.edge.deye.sun.hybrid/src/io/openems/edge/deye/sun/hybrid/DeyeSunHybridImpl.java:737-755 | In such a history any two START writes, not only consecutive ones, are more than a minute apart. |
| AbstractDeye.DiagIndex | io.openems.edge.xxxdeye.sun.hybrid/src/io/openems/edge/deye/sun/hybrid/common/AbstractDeye.java:62-68 | Every diagnostic channel has an entry in the mask table. |
| AbstractDeye.DiagChannelsDistinct | io.openems.edge.xxxdeye.sun.hybrid/src/io/openems/edge/deye/sun/hybrid/common/AbstractDeye.java:62-68 | No channel has two entries in the mask table. |
| AbstractDeye.DiagTableCoversAllChannels | io.openems.edge.xxxdeye.sun.hybrid/src/io/openems/edge/deye/sun/hybrid/common/AbstractDeye.java:2049-2052 | A map keyed by every table entry's channel has all six channels as keys. |
| AbstractDeye.DetectDiagStatesH | io.openems.edge.xxxdeye.sun.hybrid/src/io/openems/edge/deye/sun/hybrid/common/AbstractDeye.java:2049-2052 | The result has all six channels as keys. Each flag is true iff the word is non-null and shares a bit with that channel's mask, so a null word gives six false flags. |
| AbstractDeye.DiagMaskIsBit | io.openems.edge.xxxdeye.sun.hybrid/src/io/openems/edge/deye/sun/hybrid/common/AbstractDeye.java:62-68 | On a 32-bit word each mask tests one bit: 0, 1, 28, 29, 30 or 31. |
| AbstractDeye.DiagStatesHAreBits | io.openems.edge.xxxdeye.sun.hybrid/src/io/openems/edge/deye/sun/hybrid/common/AbstractDeye.java:2049-2052 | For every 32-bit register word each decoded flag is exactly its bit. |
| AbstractDeye.SocAdjustMaskIsSignExtended | io.openems.edge.xxxdeye.sun.hybrid/src/io/openems/edge/deye/sun/hybrid/common/AbstractDeye.java:67 | The `int` key 0x80000000 is sign-extended against the `Long` word, so it also flags the word 2^32 while the bit-30 channel stays false. |
| AbstractDeye.DiagStatesHExamples | io.openems.edge.deye.sun.hybrid/test/io/openems/edge/deye/common/TestStatic.java:61-115 | The unit-test words 0xC0000001 (also written 3221225473), 0xC0005701 and 0x90000003 decode to the asserted flags. |
| AbstractDeye.GetDeyeTypeFromStringValue | io.openems.edge.xxxdeye.sun.hybrid/src/io/openems/edge/deye/sun/hybrid/common/AbstractDeye.java:1274-1289 | A defined result is the type whose model string is the input. Each of the seven model strings gives its type. Null, empty and every other string give UNDEFINED. |
| AbstractDeye.FirstAccepting | io.openems.edge.xxxdeye.sun.hybrid/src/io/openems/edge/deye/sun/hybrid/common/AbstractDeye.java:1302-1315 | The result is UNDEFINED when no type's filter accepts the serial number (a throwing filter counts as no match). Otherwise it is the first type in the given order whose filter accepts. |
| AbstractDeye.GetDeyeTypeFromSerialNr | io.openems.edge.xxxdeye.sun.hybrid/src/io/openems/edge/deye/sun/hybrid/common/AbstractDeye.java:1297-1316 | A null or empty serial number gives UNDEFINED. A defined result is a declared type whose filter accepts the serial number. When some declared type accepts a non-empty serial number, the result is the first such type in declaration order. |
| AbstractDeye.GridModeFromRegister | io.openems.edge.xxxdeye.sun.hybrid/src/io/openems/edge/deye/sun/hybrid/common/AbstractDeye.java:134-147 | A defined grid mode means the register held that mode's code (1 on-grid, 2 off-grid), and each of those codes gives its mode. Null, 0 and all other values give UNDEFINED. |
| AbstractDeye.DspExtensions | io.openems.edge.xxxdeye.sun.hybrid/src/io/openems/edge/deye/sun/hybrid/common/AbstractDeye.java:1227-1249 | Version 0 gets extensions {5, 6, 7}. Any other version gets extension k ∈ {5, 6, 7} iff the version is ≥ k. A null version gets none. |
| AbstractDeye.DspExtensionsMonotonic | io.openems.edge.xxxdeye.sun.hybrid/src/io/openems/edge/deye/sun/hybrid/common/AbstractDeye.java:1237-1245 | A newer non-zero firmware version never gets fewer extensions. |
| AbstractDeye.ChargerSumRemove | io.openems.edge.xxxdeye.sun.hybrid/src/io/openems/edge/deye/sun/hybrid/common/AbstractDeye.java:1950-1956 | The PV sum over a charger set is independent of iteration order. Any one charger's power plus the sum over the rest is the whole sum. |
| AbstractDeye.ChargerSumUndefined | io.openems.edge.xxxdeye.sun.hybrid/src/io/openems/edge/deye/sun/hybrid/common/AbstractDeye.java:1950-1956 | Chargers that all report null contribute 0. |
| AbstractDeye.DcPower | io.openems.edge.xxxdeye.sun.hybrid/src/io/openems/edge/deye/sun/hybrid/common/AbstractDeye.java:2019-2022 | The maximum DC power is never null. It is the current limit times the voltage (0 when the voltage is unknown), and the voltage alone when the current limit is null. |
| AbstractDeye.MaxAcEnvelope | io.openems.edge.xxxdeye.sun.hybrid/src/io/openems/edge/deye/sun/hybrid/common/AbstractDeye.java:2016-2041 | Both values are defined. The negated import is min(max(maxDcCharge − pv, 0), maxApparent), with PV clamped to ≥ 0, so before the cap it is never negative even for a negative maxDcCharge. The export is min(maxDcDischarge + pv, maxApparent). Both are capped above and not clipped below. |
| AbstractDeye.DeyeComponent.CalculatePvProduction | io.openems.edge.xxxdeye.sun.hybrid/src/io/openems/edge/deye/sun/hybrid/common/AbstractDeye.java:1950-1956 | The loop returns null iff no charger reports a power. Otherwise it returns the sum of the reported powers over the charger set, in whatever order the set is iterated. |
| AbstractDeye.DeyeComponent.UpdatePowerAndEnergyChannels | io.openems.edge.xxxdeye.sun.hybrid/src/io/openems/edge/deye/sun/hybrid/common/AbstractDeye.java:1958-2009 | The AC active power is PV production plus the battery's DC discharge power (null only when both are). AC and DC power are each fed to the energy counters by the sign split. |
| AbstractDeye.DeyeComponent.CalculateMaxAcPower | io.openems.edge.xxxdeye.sun.hybrid/src/io/openems/edge/deye/sun/hybrid/common/AbstractDeye.java:2016-2041 | The Max-AC-Import and -Export channels hold the envelope for the current PV production. |
| AbstractDeye.DeyeComponent.AddCharger | io.openems.edge.xxxdeye.sun.hybrid/src/io/openems/edge/deye/sun/hybrid/common/AbstractDeye.java:1935-1937 | The charger set gains the charger. |
| AbstractDeye.DeyeComponent.RemoveCharger | io.openems.edge.xxxdeye.sun.hybrid/src/io/openems/edge/deye/sun/hybrid/common/AbstractDeye.java:1940-1942 | The charger set loses the charger. |
| AllowedChargeDischargeHandler.PvProductionForLimits | io.openems.edge.xxxdeye.sun.hybrid/src/io/openems/edge/deye/sun/hybrid/ess/AllowedChargeDischargeHandler.java:41-45 | PV production is never negative. It is 0 when the active power is undefined, else max(active − DC discharge, 0). |
| AllowedChargeDischargeHandler.PvProductionCoversAcSurplus | io.openems.edge.xxxdeye.sun.hybrid/src/io/openems/edge/deye/sun/hybrid/ess/AllowedChargeDischargeHandler.java:41-45 | When AC power is at least the DC discharge power, DC discharge plus the PV used gives back the AC power. |
| AllowedChargeDischargeHandler.ComposeAllowedPowers | io.openems.edge.xxxdeye.sun.hybrid/src/io/openems/edge/deye/sun/hybrid/ess/AllowedChargeDischargeHandler.java:37-49 | The allowed charge power is the negated battery charge limit. The allowed discharge power is the battery discharge limit plus the PV, so it is never below the battery limit. |
| AllowedChargeDischargeHandler.AllowedDischargeMonotonic | io.openems.edge.xxxdeye.sun.hybrid/src/io/openems/edge/deye/sun/hybrid/ess/AllowedChargeDischargeHandler.java:41-49 | More AC power, for the same DC power, never lowers the allowed discharge power. |
| AllowedChargeDischargeHandler.AllowedChargeDischargeHandler.Accept | io.openems.edge.xxxdeye.sun.hybrid/src/io/openems/edge/deye/sun/hybrid/ess/AllowedChargeDischargeHandler.java:27-50 | The two channels hold the composed limits. |
| AllowedChargeDischargeHandler.AllowedChargeDischargeHandler.AcceptWithBattery | io.openems.edge.xxxdeye.sun.hybrid/src/io/openems/edge/deye/sun/hybrid/ess/AllowedChargeDischargeHandler.java:16-19 | Ignores the battery and leaves the channels exactly as `Accept` does. |
| DeyeSunHybrid.GridModeFromRegister | io.openems.edge.deye.sun.hybrid/src/io/openems/edge/deye/sun/hybrid/DeyeSunHybridImpl.java:177-189 | 1 gives OFF_GRID and 2 gives ON_GRID, each iff. Null and every other value give UNDEFINED. |
| DeyeSunHybrid.GridModeConvertersDisagree | io.openems.edge.deye.sun.hybrid/src/io/openems/edge/deye/sun/hybrid/DeyeSunHybridImpl.java:177-189 | On codes 1 and 2 the root converter and the base component's converter give opposite defined modes. On every other value both give UNDEFINED. |
| DeyeSunHybrid.DeyeSunHybridImpl.ApplyPower | io.openems.edge.deye.sun.hybrid/src/io/openems/edge/deye/sun/hybrid/DeyeSunHybridImpl.java:152-161 | Read-only mode changes nothing. Otherwise exactly the given active and reactive set-points are written. |
| DeyeSunHybrid.DeyeSunHybridImpl.DefineWorkState | io.openems.edge.deye.sun.hybrid/src/io/openems/edge/deye/sun/hybrid/DeyeSunHybridImpl.java:737-755 | START is written, and the timestamp moved to now, iff there was no earlier write or more than a minute has passed since it. Otherwise nothing changes. The history of writes stays more than a minute apart. |
| DeyeSunHybrid.DeyeSunHybridImpl.IsManaged | io.openems.edge.deye.sun.hybrid/src/io/openems/edge/deye/sun/hybrid/DeyeSunHybridImpl.java:762-765 | Managed iff not read-only, i.e. iff a non-zero active power is admitted. |
| DeyeSunHybrid.DeyeSunHybridImpl.GetStaticConstraints | io.openems.edge.deye.sun.hybrid/src/io/openems/edge/deye/sun/hybrid/DeyeSunHybridImpl.java:772-788 | Read-only mode admits exactly active = reactive = 0. Otherwise it admits exactly the reactive powers in [−10000, 10000]. |
| DeyeSunHybrid.DeyeSunHybridImpl.AddCharger | io.openems.edge.deye.sun.hybrid/src/io/openems/edge/deye/sun/hybrid/DeyeSunHybridImpl.java:799-802 | The charger is appended to the list. |
| DeyeSunHybrid.DeyeSunHybridImpl.RemoveCharger | io.openems.edge.deye.sun.hybrid/src/io/openems/edge/deye/sun/hybrid/DeyeSunHybridImpl.java:804-807 | The first occurrence of the charger is removed from the list. |
| DeyeSunHybrid.DeyeSunHybridImpl.ApplyPowerLimitOnOvertemperature | io.openems.edge.deye.sun.hybrid/src/io/openems/edge/deye/sun/hybrid/DeyeSunHybridImpl.java:814-850 | With limit L ≠ 0 and the over-temperature state true, the ±L active-power constraints are added, and the first charger's PV limit is set to L if there is a charger. Otherwise neither changes. |
| DeyeSunHybrid.DeyeSunHybridImpl.CalculateEnergy | io.openems.edge.deye.sun.hybrid/src/io/openems/edge/deye/sun/hybrid/DeyeSunHybridImpl.java:862-903 | The AC power is split by sign. The DC discharge power is the AC power less every charger's power, and it is split the same way. |
| DeyeSunHybridEss.DeyeSunHybridImpl.ApplyPower | io.openems.edge.deye.sun.hybrid/src/io/openems/edge/deye/sun/hybrid/ess/DeyeSunHybridImpl.java:156-169 | Read-only mode changes nothing. Otherwise the active and reactive set-points and the grid-load-off power 93 are written. |
| DeyeSunHybridEss.DeyeSunHybridImpl.DefineWorkState | io.openems.edge.deye.sun.hybrid/src/io/openems/edge/deye/sun/hybrid/ess/DeyeSunHybridImpl.java:324-342 | START at most once per minute, as in the root component. `lastDefineWorkState` advances only with a write. |
| DeyeSunHybridEss.DeyeSunHybridImpl.IsManaged | io.openems.edge.deye.sun.hybrid/src/io/openems/edge/deye/sun/hybrid/ess/DeyeSunHybridImpl.java:349-352 | Managed iff not read-only. |
| DeyeSunHybridEss.DeyeSunHybridImpl.GetStaticConstraints | io.openems.edge.deye.sun.hybrid/src/io/openems/edge/deye/sun/hybrid/ess/DeyeSunHybridImpl.java:359-375 | Read-only mode forces active = reactive = 0. Otherwise reactive power lies in [−10000, 10000]. |
| DeyeSunHybridEss.DeyeSunHybridImpl.AddCharger | io.openems.edge.deye.sun.hybrid/src/io/openems/edge/deye/sun/hybrid/ess/DeyeSunHybridImpl.java:386-389 | The charger is appended to the list. |
| DeyeSunHybridEss.DeyeSunHybridImpl.RemoveCharger | io.openems.edge.deye.sun.hybrid/src/io/openems/edge/deye/sun/hybrid/ess/DeyeSunHybridImpl.java:391-394 | The first occurrence of the charger is removed. |
| DeyeSunHybridEss.DeyeSunHybridImpl.ApplyPowerLimitOnOvertemperature | io.openems.edge.deye.sun.hybrid/src/io/openems/edge/deye/sun/hybrid/ess/DeyeSunHybridImpl.java:401-437 | With limit L ≠ 0 and the state true, the ±L constraints are added, plus PV limit L on the first charger if present. Otherwise nothing changes. |
| DeyeSunHybridEss.DeyeSunHybridImpl.CalculateEnergy | io.openems.edge.deye.sun.hybrid/src/io/openems/edge/deye/sun/hybrid/ess/DeyeSunHybridImpl.java:449-490 | The AC power is split by sign. The DC discharge power is the AC power minus each charger's power in order, and it is split by the same rule. |
| GridMeterStatus.GridMeterStatus.Value | io.openems.edge.deye.sun.hybrid/src/io/openems/edge/deye/sun/hybrid/gridmeter/GridMeterStatus.java:19-22 | `getValue` returns a code in −1…2, and −1 exactly for UNDEFINED. |
| GridMeterStatus.GridMeterStatus.Name | io.openems.edge.deye.sun.hybrid/src/io/openems/edge/deye/sun/hybrid/gridmeter/GridMeterStatus.java:24-27 | `getName` returns a non-empty display name. |
| GridMeterStatus.FirstWithValue | io.openems.edge.deye.sun.hybrid/src/io/openems/edge/deye/sun/hybrid/gridmeter/GridMeterStatus.java:41-46 | The linear search returns a listed status carrying the code whenever one exists, else UNDEFINED. |
| GridMeterStatus.FromInt | io.openems.edge.deye.sun.hybrid/src/io/openems/edge/deye/sun/hybrid/gridmeter/GridMeterStatus.java:40-47 | The result carries the code or is UNDEFINED, and a code no status carries gives UNDEFINED. |
| GridMeterStatus.GetUndefined | io.openems.edge.deye.sun.hybrid/src/io/openems/edge/deye/sun/hybrid/gridmeter/GridMeterStatus.java:29-32 | Returns the status with code −1, which is UNDEFINED. |
| GridMeterStatus.ValuesComplete | io.openems.edge.deye.sun.hybrid/src/io/openems/edge/deye/sun/hybrid/gridmeter/GridMeterStatus.java:6-9 | `values()` lists every status. |
| GridMeterStatus.ValueInjective | io.openems.edge.deye.sun.hybrid/src/io/openems/edge/deye/sun/hybrid/gridmeter/GridMeterStatus.java:6-9 | No two statuses share a code. |
| GridMeterStatus.FromIntValueRoundTrip | io.openems.edge.deye.sun.hybrid/src/io/openems/edge/deye/sun/hybrid/gridmeter/GridMeterStatus.java:40-45 | Looking up any status's own code gives that status back. |
| GridMeterStatus.FromIntCodes | io.openems.edge.deye.sun.hybrid/src/io/openems/edge/deye/sun/hybrid/gridmeter/GridMeterStatus.java:40-47 | The codes −1…2 map to the statuses with those codes (−1 UNDEFINED, 0 NOT_CONNECTED, 1 ON_GRID, 2 OFF_GRID). Every other code maps to UNDEFINED. |

## Left out

- Modbus register maps, FC3/FC16 tasks, scale factors and bit-list elements are wire-level I/O tables. Only the inline converters are modelled: the two grid-mode converters and the diagnostic decoder.
- The asynchronous reads that trigger protocol extension (`readELementOnce`, `handleDspVersion5/6/7`, `handleMultipleStringChargers`) are I/O. Only the version-to-extensions rule is modelled, as `AbstractDeye.DspExtensions`.
- `DeyeType` and its serial-number filters are not part of this model. The type order and the filter results are parameters of `AbstractDeye.GetDeyeTypeFromSerialNr`, and the serial-number test vectors are therefore not restated. Likewise, `TypeRegisterString` is written from the string switch, not from the enum.
- The surplus feed-in handler, `setMultipleStringChannels` and the two-string charger arithmetic are not part of this model. The surplus target enters `ApplyPowerHandler.Decide` as a parameter.
- `TypeUtils` is not part of this model. Its null convention is assumed as stated above.
- `AbstractAllowedChargeDischargeHandler` and `Math.round` work on floats and are not part of this model. The rounded battery limits are integer inputs.
- `CalculateEnergyFromPower`, `Timedata`, the power solver, OSGi life cycle, logging and the Modbus slave table are external collaborators. Energy updates are modelled as the values fed in, solver constraints as the list handed over, and channel writes as fields.
- DeyeSunHybrid.DeyeSunHybridImpl.ApplyPowerLimitOnOvertemperature: the solver rejecting a constraint (`addConstraintAndValidate` throwing) is not modelled. The model assumes both constraints are accepted. The same holds for `DeyeSunHybridEss.DeyeSunHybridImpl.ApplyPowerLimitOnOvertemperature`.
- EssCommon.SplitBySign: `power * -1` wraps for `Integer.MIN_VALUE` in Java and is exact here. The same holds for the negation in `AbstractDeye.MaxAcEnvelope` and `AllowedChargeDischargeHandler.ComposeAllowedPowers`.
- AbstractDeye.MaxAcEnvelope: products and sums of current, voltage and PV are exact, while Java computes them as wrapping `int`s. Realistic BMS currents and voltages stay far from 2^31.
- AbstractDeye.DeyeComponent.CalculatePvProduction: the sum is exact, while Java's `Integer` sum can wrap.
- AllowedChargeDischargeHandler.ComposeAllowedPowers: the discharge limit plus PV is exact, while Java's `int` sum can wrap.
- The `synchronized` on `apply` only serialises calls. Calls are modelled one at a time.
- `LocalDateTime.now()` is the `now` parameter in whole seconds. Sub-second resolution is not modelled, and neither is a clock that jumps backwards (any `now` is accepted).
- Which charger objects the component holds, and their channels, are not modelled. Chargers are identified by component id, and their actual power is a function passed in.
- Data-only files (configurations, enums without behaviour, interfaces), `BpData`, UI code and the component smoke tests carry no decision logic.

## Findings

| source | as written | input that shows it | evidently intended | confidence | as-written member | corrected member |
|---|---|---|---|---|---|---|
| io.openems.edge.deye.sun.hybrid/src/io/openems/edge/deye/sun/hybrid/common/ApplyPowerHandler.java:116 | `activePowerSetPoint * -1 + pvProduction` in 32-bit `int` | set-point `Integer.MIN_VALUE`, PV 0: writes (CHARGE_BAT, −2147483648) | a non-negative charge set-point equal to −s + pv (2^31 here) | not executed; low impact (needs a set-point of −2^31 W) | ApplyPowerHandler.RemoteRuleJavaOverflow | ApplyPowerHandler.RemoteRule |
| io.openems.edge.deye.sun.hybrid/src/io/openems/edge/deye/sun/hybrid/common/ApplyPowerHandler.java:101 | `gridActivePower + essActivePower` in 32-bit `int` | grid `Integer.MAX_VALUE`, ESS 1, set-point `Integer.MIN_VALUE`: the wrapped difference is 0, so SMART stays in AUTO | AUTO only when the set-point really equals grid + ESS power; here charge 2^31 W | not executed; low impact (needs extreme powers) | ApplyPowerHandler.SmartGuardJavaOverflow | ApplyPowerHandler.SmartMode |
