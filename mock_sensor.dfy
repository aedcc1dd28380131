/**
 * The simulated DS18B20 sensor that stands in for the one-wire driver when no
 * hardware is present. A sensor is an immutable value: its type, its id and a
 * base temperature fixed when it is built. Every draw of Python's `random`
 * module is an explicit `Fraction` parameter: `random.uniform(a, b)` computes
 * `a + (b - a) * random()`, with `random()` in [0, 1].
 */
module MockW1Therm {
  import opened Wrappers
  import opened Strings

  /** A value of `random.random()`. */
  type Fraction = r: real | 0.0 <= r <= 1.0

  // Unit names (MockUnit).
  const DEGREES_C := "celsius"
  const DEGREES_F := "fahrenheit"
  const KELVIN := "kelvin"

  // Sensor type (MockSensor) and the id used when none is given.
  const DS18B20 := "DS18B20"
  const DEFAULT_ID := "mock_sensor"

  /** An id whose lower-case form contains this gets a room-temperature base. */
  const MOCK_MARKER := "mock"

  // Id suffixes of the four heat-exchanger test sensors.
  const HOT_INLET_SUFFIX := "32323232323232"
  const HOT_OUTLET_SUFFIX := "323232545454545"
  const COLD_INLET_SUFFIX := "567890123456789"
  const COLD_OUTLET_SUFFIX := "665656565656565"
  const KNOWN_SUFFIXES := [HOT_INLET_SUFFIX, HOT_OUTLET_SUFFIX, COLD_INLET_SUFFIX, COLD_OUTLET_SUFFIX]
  const KNOWN_BASES := [85.0, 45.0, 15.0, 55.0]

  /** Half-width of the per-reading variation. */
  const JITTER := 2.0

  /** `random.uniform(a, b)` for the draw `u` of `random.random()`. */
  function Uniform(a: real, b: real, u: Fraction): (r: real)
    requires a <= b
    ensures a <= r <= b
  {
    var width := b - a;
    ScaleWithin(width, u);
    a + width * u
  }

  /** Scaling a non-negative width by a fraction stays within [0, width]. */
  lemma ScaleWithin(d: real, u: Fraction)
    requires 0.0 <= d
    ensures 0.0 <= d * u <= d
  {
    assert d * (1.0 - u) >= 0.0;
  }

  /** Python's `x or default` on a string that may be `None`: `None` and "" are both falsy. */
  function OrDefault(x: Option<string>, default: string): (r: string)
    ensures x.Some? && x.value != [] ==> r == x.value
    ensures x.None? || x.value == [] ==> r == default
  {
    if x.Some? && x.value != [] then x.value else default
  }

  datatype MockW1ThermSensor = MockW1ThermSensor(sensorType: string, sensorId: string, baseTemp: real)

  /**
   * `_get_base_temperature`: the first matching rule decides, "mock" first,
   * then the four known suffixes, then a draw over the wide range. Every rule
   * lands in [15, 85].
   */
  function BaseTemperature(sensorId: string, u: Fraction): (t: real)
    ensures 15.0 <= t <= 85.0
    ensures Contains(Lower(sensorId), MOCK_MARKER) ==> 20.0 <= t <= 25.0
  {
    var s := Lower(sensorId);
    if Contains(s, MOCK_MARKER) then Uniform(20.0, 25.0, u)
    else if EndsWith(s, HOT_INLET_SUFFIX) then 85.0
    else if EndsWith(s, HOT_OUTLET_SUFFIX) then 45.0
    else if EndsWith(s, COLD_INLET_SUFFIX) then 15.0
    else if EndsWith(s, COLD_OUTLET_SUFFIX) then 55.0
    else Uniform(15.0, 85.0, u)
  }

  /**
   * `MockW1ThermSensor(sensor_type, sensor_id)`: missing or empty arguments
   * fall back to the defaults, and the base temperature is drawn once, here.
   */
  function NewMockSensor(sensorType: Option<string>, sensorId: Option<string>, u: Fraction): (m: MockW1ThermSensor)
    ensures m.sensorType == OrDefault(sensorType, DS18B20) && m.sensorType != []
    ensures m.sensorId == OrDefault(sensorId, DEFAULT_ID) && m.sensorId != []
    ensures m.baseTemp == BaseTemperature(m.sensorId, u)
    ensures 15.0 <= m.baseTemp <= 85.0
  {
    var id := OrDefault(sensorId, DEFAULT_ID);
    MockW1ThermSensor(OrDefault(sensorType, DS18B20), id, BaseTemperature(id, u))
  }

  /** Converts a Celsius value to `unit`; an unrecognised unit gets Celsius. */
  function FromCelsius(c: real, unit: string): (t: real)
    ensures ToCelsius(t, unit) == c
  {
    if unit == DEGREES_F then c * 9.0 / 5.0 + 32.0
    else if unit == KELVIN then c + 273.15
    else c
  }

  /** The inverse of `FromCelsius`, the reference against which readings are bounded. */
  function ToCelsius(t: real, unit: string): real
  {
    if unit == DEGREES_F then (t - 32.0) * 5.0 / 9.0
    else if unit == KELVIN then t - 273.15
    else t
  }

  /**
   * `get_temperature(unit)`: the base plus a variation drawn from
   * [-2, 2] by `u`, in the requested unit (`None` or "" mean Celsius).
   */
  function GetTemperature(m: MockW1ThermSensor, unit: Option<string>, u: Fraction): (t: real)
    ensures m.baseTemp - JITTER <= ToCelsius(t, OrDefault(unit, DEGREES_C)) <= m.baseTemp + JITTER
    ensures OrDefault(unit, DEGREES_C) !in {DEGREES_F, KELVIN} ==> m.baseTemp - JITTER <= t <= m.baseTemp + JITTER
  {
    var celsius := m.baseTemp + Uniform(-JITTER, JITTER, u);
    FromCelsius(celsius, OrDefault(unit, DEGREES_C))
  }

  /** `get_id`. */
  function GetId(m: MockW1ThermSensor): (id: string)
    ensures id == m.sensorId
  {
    m.sensorId
  }

  /** `get_available_sensors`: the four heat-exchanger sensors, in order. */
  function GetAvailableSensors(): (r: seq<MockW1ThermSensor>)
    ensures |r| == |KNOWN_SUFFIXES| == 4
    ensures forall i :: 0 <= i < |r| ==> r[i].sensorType == DS18B20
    ensures forall i :: 0 <= i < |r| ==> r[i].sensorId == KNOWN_SUFFIXES[i]
    ensures forall i :: 0 <= i < |r| ==> r[i].baseTemp == KNOWN_BASES[i]
  {
    // None of these ids takes a random branch, so the draw passed is never used.
    KnownIdBases(0.0);
    seq(|KNOWN_SUFFIXES|, i requires 0 <= i < |KNOWN_SUFFIXES| =>
      NewMockSensor(Some(DS18B20), Some(KNOWN_SUFFIXES[i]), 0.0))
  }

  /** A string of digits only: the known suffixes are. */
  predicate IsDigits(s: string)
  {
    forall i :: 0 <= i < |s| ==> '0' <= s[i] <= '9'
  }

  /** A digit-only id is its own lower-case form and contains no "mock". */
  lemma {:induction false} DigitIdIsNotMock(id: string)
    requires IsDigits(id)
    ensures Lower(id) == id
    ensures !Contains(Lower(id), MOCK_MARKER)
  {
    LowerOfLower(id);
    if Contains(id, MOCK_MARKER) {
      ContainsChar(id, MOCK_MARKER, 0);
      assert false;
    }
  }

  /**
   * An id that is not a "mock" id and ends with the k-th known suffix gets the
   * k-th fixed base, whatever the draw.
   */
  lemma KnownSuffixBase(id: string, k: nat, u: Fraction)
    requires k < |KNOWN_SUFFIXES|
    requires !Contains(Lower(id), MOCK_MARKER) && EndsWith(Lower(id), KNOWN_SUFFIXES[k])
    ensures BaseTemperature(id, u) == KNOWN_BASES[k]
  {
    var s := Lower(id);
    SuffixesExclusive(s);
    if k == 0 {
      assert EndsWith(s, HOT_INLET_SUFFIX);
    } else if k == 1 {
      assert !EndsWith(s, KNOWN_SUFFIXES[0]);
    } else if k == 2 {
      assert !EndsWith(s, KNOWN_SUFFIXES[0]) && !EndsWith(s, KNOWN_SUFFIXES[1]);
    } else {
      assert !EndsWith(s, KNOWN_SUFFIXES[0]) && !EndsWith(s, KNOWN_SUFFIXES[1]);
      assert !EndsWith(s, KNOWN_SUFFIXES[2]);
    }
  }

  /** Each known suffix, used verbatim as an id, gets its fixed base. */
  lemma KnownIdBase(k: nat, u: Fraction)
    requires k < |KNOWN_SUFFIXES|
    ensures BaseTemperature(KNOWN_SUFFIXES[k], u) == KNOWN_BASES[k]
  {
    var id := KNOWN_SUFFIXES[k];
    DigitIdIsNotMock(id);
    KnownSuffixBase(id, k, u);
  }

  lemma KnownIdBases(u: Fraction)
    ensures forall k :: 0 <= k < |KNOWN_SUFFIXES| ==> BaseTemperature(KNOWN_SUFFIXES[k], u) == KNOWN_BASES[k]
  {
    forall k | 0 <= k < |KNOWN_SUFFIXES| {
      KnownIdBase(k, u);
    }
  }

  /**
   * No id ends with two of the known suffixes, so only the "mock" rule's
   * precedence matters; the order of the four suffix rules does not.
   */
  lemma SuffixesExclusive(s: string)
    ensures forall i, j :: 0 <= i < j < |KNOWN_SUFFIXES| ==>
      !(EndsWith(s, KNOWN_SUFFIXES[i]) && EndsWith(s, KNOWN_SUFFIXES[j]))
  {
    var suffixes := KNOWN_SUFFIXES;
    forall k | 0 <= k < 4 && EndsWith(s, suffixes[k])
      ensures s[|s| - 2..] == suffixes[k][|suffixes[k]| - 2..]
    {
      var suf := suffixes[k];
      assert s[|s| - 2..] == s[|s| - |suf|..][|suf| - 2..];
    }
  }

  /** A missing or empty id becomes "mock_sensor", whose base lies in [20, 25]. */
  lemma DefaultIdIsMock(sensorType: Option<string>, sensorId: Option<string>, u: Fraction)
    requires sensorId.None? || sensorId.value == []
    ensures NewMockSensor(sensorType, sensorId, u).sensorId == DEFAULT_ID
    ensures 20.0 <= NewMockSensor(sensorType, sensorId, u).baseTemp <= 25.0
  {
    LowerOfLower(DEFAULT_ID);
    assert MOCK_MARKER <= DEFAULT_ID;
  }

  /** A missing or empty sensor type becomes DS18B20; `get_id` returns the id stored at construction. */
  lemma ConstructionDefaults(sensorType: Option<string>, sensorId: Option<string>, u: Fraction)
    ensures sensorType.None? || sensorType.value == [] ==> NewMockSensor(sensorType, sensorId, u).sensorType == DS18B20
    ensures sensorId.Some? && sensorId.value != [] ==> GetId(NewMockSensor(sensorType, sensorId, u)) == sensorId.value
  {
  }

  /**
   * The same draw read in the three units: Fahrenheit is C * 9 / 5 + 32,
   * Kelvin is C + 273.15, and any other unit name gives Celsius.
   */
  lemma UnitConversion(m: MockW1ThermSensor, unit: string, u: Fraction)
    ensures GetTemperature(m, Some(DEGREES_F), u) == GetTemperature(m, None, u) * 9.0 / 5.0 + 32.0
    ensures GetTemperature(m, Some(KELVIN), u) == GetTemperature(m, None, u) + 273.15
    ensures unit !in {DEGREES_F, KELVIN} ==> GetTemperature(m, Some(unit), u) == GetTemperature(m, None, u)
  {
  }

  /** The Celsius reading of a sensor whose id ends with the k-th known suffix lies within 2 of the k-th base. */
  lemma {:induction false} KnownSensorReading(id: string, k: nat, u0: Fraction, u: Fraction)
    requires k < |KNOWN_SUFFIXES|
    requires !Contains(Lower(id), MOCK_MARKER) && EndsWith(Lower(id), KNOWN_SUFFIXES[k])
    ensures var t := GetTemperature(NewMockSensor(Some(DS18B20), Some(id), u0), None, u);
      KNOWN_BASES[k] - JITTER <= t <= KNOWN_BASES[k] + JITTER
  {
    assert id != [];
    KnownSuffixBase(id, k, u0);
  }

  /** A hot-inlet sensor always reads strictly between 80 and 90 degrees Celsius. */
  lemma HotInletReadingRange(id: string, u0: Fraction, u: Fraction)
    requires !Contains(Lower(id), MOCK_MARKER) && EndsWith(Lower(id), HOT_INLET_SUFFIX)
    ensures 80.0 < GetTemperature(NewMockSensor(Some(DS18B20), Some(id), u0), None, u) < 90.0
  {
    KnownSensorReading(id, 0, u0, u);
  }

  /** A cold-inlet sensor always reads strictly between 10 and 20 degrees Celsius. */
  lemma ColdInletReadingRange(id: string, u0: Fraction, u: Fraction)
    requires !Contains(Lower(id), MOCK_MARKER) && EndsWith(Lower(id), COLD_INLET_SUFFIX)
    ensures 10.0 < GetTemperature(NewMockSensor(Some(DS18B20), Some(id), u0), None, u) < 20.0
  {
    KnownSensorReading(id, 2, u0, u);
  }

  /** Any simulated sensor reads between 13 and 87 degrees Celsius, well inside (-50, 150). */
  lemma AnyReadingRange(sensorType: Option<string>, sensorId: Option<string>, u0: Fraction, u: Fraction)
    ensures var t := GetTemperature(NewMockSensor(sensorType, sensorId, u0), None, u);
      13.0 <= t <= 87.0 && -50.0 < t < 150.0
  {
  }
}
