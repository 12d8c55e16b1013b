/** Rules shared by the Deye components: the grid mode, the sign split that feeds the
    energy counters, the DC power left after the chargers' share, the chargers list,
    the power-solver constraints and the START throttle. */
module EssCommon {
  import opened TypeUtils

  /** A charger (PV string/MPPT) component, by its component id. */
  datatype ChargerId = ChargerId(componentId: string)

  /** OpenEMS grid mode. */
  datatype GridMode = UNDEFINED | ON_GRID | OFF_GRID

  /** The values fed into the charge and discharge energy counters (null = not available). */
  datatype EnergyFeed = EnergyFeed(charge: Option<int>, discharge: Option<int>)

  /** The sign split of a power: positive power is discharge, the rest is charge.
      The two feeds are the unique non-negative pair, one of them zero, whose
      difference is the power. */
  function SplitBySign(power: Option<int>): (r: EnergyFeed)
    ensures r.charge.Some? <==> power.Some?
    ensures r.discharge.Some? <==> power.Some?
    ensures power.Some? ==> r.charge.value >= 0 && r.discharge.value >= 0
    ensures power.Some? ==> r.discharge.value - r.charge.value == power.value
    ensures power.Some? ==> r.charge.value == 0 || r.discharge.value == 0
  {
    if power.None? then
      EnergyFeed(None, None)
    else if power.value > 0 then
      EnergyFeed(Some(0), Some(power.value))
    else
      EnergyFeed(Some(power.value * -1), Some(0))
  }

  /** Any non-negative split of `p` with one side zero is the one `SplitBySign` feeds. */
  lemma SplitBySignUnique(p: int, charge: int, discharge: int)
    requires charge >= 0 && discharge >= 0 && (charge == 0 || discharge == 0)
    requires discharge - charge == p
    ensures SplitBySign(Some(p)) == EnergyFeed(Some(charge), Some(discharge))
  {
    if p > 0 {
      assert charge == 0;
    } else {
      assert discharge == 0;
    }
  }

  /** The sum of the chargers' defined actual powers (null counts as nothing). */
  function ChargerPowerSum(chargers: seq<ChargerId>, actualPower: ChargerId -> Option<int>): int {
    if chargers == [] then 0
    else ChargerPowerSum(chargers[..|chargers| - 1], actualPower) + actualPower(chargers[|chargers| - 1]).OrElse(0)
  }

  /** DC discharge power: the AC power minus the actual power of every charger. */
  function DcDischargeOf(acPower: Option<int>, chargers: seq<ChargerId>,
                         actualPower: ChargerId -> Option<int>): Option<int> {
    if acPower.None? then None else Some(acPower.value - ChargerPowerSum(chargers, actualPower))
  }

  /** The subtraction loop of `calculateEnergy`: starts from the AC power and subtracts
      each charger's actual power in list order. The AC power is the DC discharge
      power plus what the chargers produce. */
  method SubtractChargerPowers(acPower: Option<int>, chargers: seq<ChargerId>,
                               actualPower: ChargerId -> Option<int>) returns (dc: Option<int>)
    ensures dc == DcDischargeOf(acPower, chargers, actualPower)
    ensures dc.None? <==> acPower.None?
    ensures dc.Some? ==> dc.value + ChargerPowerSum(chargers, actualPower) == acPower.value
  {
    dc := acPower;
    var i := 0;
    while i < |chargers|
      invariant 0 <= i <= |chargers|
      invariant dc == DcDischargeOf(acPower, chargers[..i], actualPower)
    {
      assert chargers[..i + 1][..i] == chargers[..i];
      dc := Subtract(dc, actualPower(chargers[i]));
      i := i + 1;
    }
    assert chargers[..i] == chargers;
  }

  /** The sum over a concatenation is the sum of the parts. */
  lemma {:induction false} ChargerPowerSumAppend(a: seq<ChargerId>, b: seq<ChargerId>,
                                                 actualPower: ChargerId -> Option<int>)
    ensures ChargerPowerSum(a + b, actualPower) == ChargerPowerSum(a, actualPower) + ChargerPowerSum(b, actualPower)
    decreases |b|
  {
    if b == [] {
      assert a + b == a;
    } else {
      var b' := b[..|b| - 1];
      assert (a + b)[..|a + b| - 1] == a + b';
      ChargerPowerSumAppend(a, b', actualPower);
    }
  }

  /** Position of the first occurrence of `x` in `s`. */
  function IndexOf(s: seq<ChargerId>, x: ChargerId): (i: nat)
    requires x in s
    ensures i < |s| && s[i] == x && x !in s[..i]
  {
    if s[0] == x then 0
    else
      assert x in s[1..];
      var j := IndexOf(s[1..], x);
      assert s[..j + 1] == [s[0]] + s[1..][..j];
      1 + j
  }

  /** `List.remove(Object)`: drops the first occurrence of `x`, if any, keeping the
      order of the other chargers; as a bag, exactly one `x` fewer. */
  function RemoveFirst(s: seq<ChargerId>, x: ChargerId): (r: seq<ChargerId>)
    ensures x !in s ==> r == s
    ensures x in s ==> |r| == |s| - 1
    ensures multiset(r) == multiset(s) - multiset{x}
    ensures x in s ==> exists i :: 0 <= i < |s| && s[i] == x && x !in s[..i] && r == s[..i] + s[i + 1..]
  {
    if x !in s then s
    else
      var i := IndexOf(s, x);
      assert s == s[..i] + [x] + s[i + 1..];
      s[..i] + s[i + 1..]
  }

  /** Removing a charger takes exactly its power out of the chargers' total, so the
      DC discharge power computed afterwards grows by that power. */
  lemma RemoveFirstChargerPowerSum(s: seq<ChargerId>, x: ChargerId, actualPower: ChargerId -> Option<int>)
    requires x in s
    ensures ChargerPowerSum(RemoveFirst(s, x), actualPower) == ChargerPowerSum(s, actualPower) - actualPower(x).OrElse(0)
  {
    var i := IndexOf(s, x);
    assert s == s[..i] + [x] + s[i + 1..];
    ChargerPowerSumAppend(s[..i] + [x], s[i + 1..], actualPower);
    ChargerPowerSumAppend(s[..i], [x], actualPower);
    ChargerPowerSumAppend(s[..i], s[i + 1..], actualPower);
    assert ChargerPowerSum([x], actualPower) == actualPower(x).OrElse(0) by {
      assert [x][..0] == [];
    }
  }

  // ---------------------------------------------------------------------------
  // Constraints handed to the power solver (all phases).
  // ---------------------------------------------------------------------------

  datatype Pwr = ACTIVE | REACTIVE
  datatype Relationship = EQUALS | GREATER_OR_EQUALS | LESS_OR_EQUALS
  datatype Constraint = Constraint(description: string, pwr: Pwr, relationship: Relationship, value: int)

  /** Whether active power `p` and reactive power `q` meet constraint `c`. */
  predicate Satisfies(c: Constraint, p: int, q: int) {
    var x := if c.pwr == ACTIVE then p else q;
    match c.relationship
    case EQUALS => x == c.value
    case GREATER_OR_EQUALS => x >= c.value
    case LESS_OR_EQUALS => x <= c.value
  }

  /** Whether `(p, q)` meets every constraint of `cs`. */
  predicate Admits(cs: seq<Constraint>, p: int, q: int) {
    forall i :: 0 <= i < |cs| ==> Satisfies(cs[i], p, q)
  }

  lemma AdmitsPair(a: Constraint, b: Constraint)
    ensures forall p: int, q: int {:trigger Admits([a, b], p, q)} ::
              Admits([a, b], p, q) <==> Satisfies(a, p, q) && Satisfies(b, p, q)
  {
    forall p: int, q: int
      ensures Admits([a, b], p, q) <==> Satisfies(a, p, q) && Satisfies(b, p, q)
    {
      assert [a, b][0] == a && [a, b][1] == b;
    }
  }

  const MIN_REACTIVE_POWER: int := -10000
  const MAX_REACTIVE_POWER: int := 10000

  /** `getStaticConstraints`: read-only pins both powers to zero, otherwise only the
      reactive power is bounded. */
  function StaticConstraints(readOnlyMode: bool): (cs: seq<Constraint>)
    ensures |cs| == 2
    ensures forall p: int, q: int {:trigger Admits(cs, p, q)} ::
              Admits(cs, p, q) <==>
                if readOnlyMode then p == 0 && q == 0
                else MIN_REACTIVE_POWER <= q <= MAX_REACTIVE_POWER
  {
    if readOnlyMode then
      var active := Constraint("Read-Only-Mode", ACTIVE, EQUALS, 0);
      var reactive := Constraint("Read-Only-Mode", REACTIVE, EQUALS, 0);
      AdmitsPair(active, reactive);
      [active, reactive]
    else
      var min := Constraint("Commercial40 Min Reactive Power", REACTIVE, GREATER_OR_EQUALS, MIN_REACTIVE_POWER);
      var max := Constraint("Commercial40 Max Reactive Power", REACTIVE, LESS_OR_EQUALS, MAX_REACTIVE_POWER);
      AdmitsPair(min, max);
      [min, max]
  }

  /** `isManaged`: the component is managed exactly when its static constraints let
      the power solver ask for a non-zero active power. */
  function IsManaged(readOnlyMode: bool): (r: bool)
    ensures r <==> Admits(StaticConstraints(readOnlyMode), 1, 0)
    ensures r <==> exists p: int :: p != 0 && Admits(StaticConstraints(readOnlyMode), p, 0)
  {
    assert Admits(StaticConstraints(readOnlyMode), 1, 0) <==> !readOnlyMode;
    !readOnlyMode
  }

  /** The constraints the over-temperature rule adds: none unless the configured limit
      is non-zero and the over-temperature state is set; then active power is bounded
      by the limit on both sides. */
  function OvertemperatureConstraints(limit: int, overTemperature: Option<bool>): (cs: seq<Constraint>)
    ensures cs != [] <==> limit != 0 && overTemperature.OrElse(false)
    ensures cs != [] ==> forall p: int, q: int {:trigger Admits(cs, p, q)} ::
              Admits(cs, p, q) <==> -limit <= p <= limit
  {
    if limit != 0 && overTemperature.OrElse(false) then
      var lower := Constraint("Limit On PowerDecreaseCausedByOvertemperature Error", ACTIVE, GREATER_OR_EQUALS, limit * -1);
      var upper := Constraint("Limit On PowerDecreaseCausedByOvertemperature Error", ACTIVE, LESS_OR_EQUALS, limit);
      AdmitsPair(lower, upper);
      [lower, upper]
    else
      []
  }

  // ---------------------------------------------------------------------------
  // The START throttle of `defineWorkState`. Time is a counter in seconds.
  // ---------------------------------------------------------------------------

  datatype SetWorkState = START

  const ONE_MINUTE: int := 60

  /** `last == null || now.minusMinutes(1).isAfter(last)`. */
  predicate StartDue(last: Option<int>, now: int) {
    last.None? || now - ONE_MINUTE > last.value
  }

  /** Consecutive START writes lie more than one minute apart. */
  ghost predicate SpacedMoreThanAMinute(times: seq<int>) {
    forall i :: 0 <= i < |times| - 1 ==> times[i] + ONE_MINUTE < times[i + 1]
  }

  /** In a spaced history any two START writes lie more than a minute apart, so no
      one-minute window holds two of them. */
  lemma {:induction false} SpacedWritesApart(times: seq<int>, i: int, j: int)
    requires SpacedMoreThanAMinute(times)
    requires 0 <= i < j < |times|
    ensures times[i] + ONE_MINUTE < times[j]
    decreases j - i
  {
    if j > i + 1 {
      SpacedWritesApart(times, i, j - 1);
      assert times[j - 1] + ONE_MINUTE < times[j];
    }
  }

  /** The timestamp kept by `defineWorkState` is the time of the last START write. */
  ghost predicate ThrottleState(last: Option<int>, startWrites: seq<int>) {
    SpacedMoreThanAMinute(startWrites) &&
    last == (if startWrites == [] then None else Some(startWrites[|startWrites| - 1]))
  }

  /** A due write keeps the START history spaced. */
  lemma ThrottleStep(last: Option<int>, startWrites: seq<int>, now: int)
    requires ThrottleState(last, startWrites)
    requires StartDue(last, now)
    ensures ThrottleState(Some(now), startWrites + [now])
  {
    var w := startWrites + [now];
    forall i | 0 <= i < |w| - 1
      ensures w[i] + ONE_MINUTE < w[i + 1]
    {
      if i < |startWrites| - 1 {
        assert w[i] == startWrites[i] && w[i + 1] == startWrites[i + 1];
      } else {
        assert w[i] == last.value && w[i + 1] == now;
      }
    }
  }
}
