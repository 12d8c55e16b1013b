/** The status reported by the Deye grid meter: an option enum with a code and a
    display name per value, and a code-to-value lookup falling back to UNDEFINED. */
module GridMeterStatus {

  datatype GridMeterStatus = UNDEFINED | NOT_CONNECTED | ON_GRID | OFF_GRID {
    /** `getValue`: the status code, -1 for UNDEFINED only. */
    function Value(): (v: int)
      ensures -1 <= v <= 2
      ensures v == -1 <==> this == UNDEFINED
    {
      match this
      case UNDEFINED => -1
      case NOT_CONNECTED => 0
      case ON_GRID => 1
      case OFF_GRID => 2
    }

    /** `getName`: a non-empty display name. */
    function Name(): (n: string)
      ensures |n| > 0
    {
      match this
      case UNDEFINED => "Undefined"
      case NOT_CONNECTED => "Unknown (Grid meter not connected)"
      case ON_GRID => "On-Grid mode"
      case OFF_GRID => "Off-Grid mode"
    }
  }

  /** `values()`, in declaration order. */
  const Values: seq<GridMeterStatus> := [UNDEFINED, NOT_CONNECTED, ON_GRID, OFF_GRID]

  /** The first of `statuses` whose code is `value`, UNDEFINED if none. */
  function FirstWithValue(statuses: seq<GridMeterStatus>, value: int): (r: GridMeterStatus)
    ensures r == UNDEFINED || (r in statuses && r.Value() == value)
    ensures (exists s :: s in statuses && s.Value() == value) ==> r in statuses && r.Value() == value
  {
    if statuses == [] then UNDEFINED
    else if statuses[0].Value() == value then statuses[0]
    else
      var r := FirstWithValue(statuses[1..], value);
      assert forall s :: s in statuses && s != statuses[0] ==> s in statuses[1..];
      r
  }

  /** `fromInt`: the status with this code, UNDEFINED for every other code. */
  function FromInt(value: int): (r: GridMeterStatus)
    ensures r.Value() == value || r == UNDEFINED
    ensures (forall s: GridMeterStatus :: s.Value() != value) ==> r == UNDEFINED
  {
    FirstWithValue(Values, value)
  }

  /** `getUndefined`. */
  function GetUndefined(): (r: GridMeterStatus)
    ensures r.Value() == -1
    ensures forall s: GridMeterStatus :: s.Value() == -1 ==> s == r
  {
    UNDEFINED
  }

  /** Every status is listed in `Values`. */
  lemma ValuesComplete(s: GridMeterStatus)
    ensures s in Values
  {
    match s
    case UNDEFINED => assert Values[0] == s;
    case NOT_CONNECTED => assert Values[1] == s;
    case ON_GRID => assert Values[2] == s;
    case OFF_GRID => assert Values[3] == s;
  }

  /** The codes are distinct. */
  lemma ValueInjective(s: GridMeterStatus, t: GridMeterStatus)
    requires s.Value() == t.Value()
    ensures s == t
  {
  }

  /** Looking up a status's own code gives the status back. */
  lemma FromIntValueRoundTrip(s: GridMeterStatus)
    ensures FromInt(s.Value()) == s
  {
    ValuesComplete(s);
    var r := FromInt(s.Value());
    ValueInjective(r, s);
  }

  /** A code of the table comes back unchanged; any other code gives UNDEFINED. */
  lemma FromIntCodes(value: int)
    ensures -1 <= value <= 2 ==> FromInt(value).Value() == value
    ensures value < -1 || value > 2 ==> FromInt(value) == UNDEFINED
  {
    if -1 <= value <= 2 {
      var s := if value == -1 then UNDEFINED else if value == 0 then NOT_CONNECTED
               else if value == 1 then ON_GRID else OFF_GRID;
      FromIntValueRoundTrip(s);
    }
  }
}
