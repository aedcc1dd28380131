/**
 * The temperature collector of the heat-exchanger monitor: a table of sensor
 * handles built from a name -> device-id mapping, single and bulk reads that
 * turn every failure into an absent value, the exchanger's effectiveness, and
 * the monitor loop that hands each cycle's readings to a callback.
 *
 * The outside world is explicit: `attached` says whether the one-wire driver
 * finds a device (its constructor raises otherwise), `hw` is the driver's read,
 * which may fail, and the random draws of the simulated sensors are
 * `Fraction` parameters, one per sensor name.
 */
module Collector {
  import opened Wrappers
  import opened Strings
  import opened MockW1Therm

  /** The one-wire family code of the DS18B20, removed from device ids. */
  const FAMILY_PREFIX := "28-"
  /** A device id whose lower-case form contains this always gets a simulated sensor. */
  const SIMULATED_MARKER := "simulated"

  // The four measurement points of the exchanger.
  const HOT_INLET := "T1"
  const HOT_OUTLET := "T2"
  const COLD_INLET := "T3"
  const COLD_OUTLET := "T4"
  const REQUIRED_SENSORS := [HOT_INLET, HOT_OUTLET, COLD_INLET, COLD_OUTLET]

  /** The pseudo-entry a monitor cycle adds to its readings. */
  const EFFICIENCY_KEY := "Efficiency"

  /** A sensor handle: the simulated sensor, or the driver's object bound to an id. */
  datatype SensorHandle = Simulated(mock: MockW1ThermSensor) | Hardware(sensorType: string, id: string)

  /** What one monitor cycle observes: the jitter draw of each simulated sensor and the driver's reads. */
  datatype CycleInputs = CycleInputs(draw: string -> Fraction, hw: (string, string) -> Option<real>)

  // ---------------------------------------------------------------------------
  // Building the sensor table

  /** The id handed to a sensor: `device_id.replace("28-", "")`, every occurrence removed. */
  function SensorId(deviceId: string): (id: string)
    ensures |id| <= |deviceId|
    ensures id == deviceId <==> !Contains(deviceId, FAMILY_PREFIX)
  {
    RemoveAll(deviceId, FAMILY_PREFIX)
  }

  /**
   * Whether the entry gets a simulated sensor: its id says "simulated", or the
   * driver in use is the mock one.
   */
  predicate Simulates(deviceId: string, usingMock: bool)
    ensures usingMock ==> Simulates(deviceId, usingMock)
    ensures !usingMock ==> (Simulates(deviceId, usingMock) <==> Contains(Lower(SensorId(deviceId)), SIMULATED_MARKER))
  {
    Contains(Lower(SensorId(deviceId)), SIMULATED_MARKER) || usingMock
  }

  /**
   * One step of `_initialize_sensors`: the handle for `deviceId`, or `None`
   * where the driver's constructor raises. `u` is the draw the simulated
   * sensor's constructor may take for its base temperature.
   */
  function MakeHandle(deviceId: string, usingMock: bool, attached: string -> bool, u: Fraction): (h: Option<SensorHandle>)
    ensures h.None? <==> !Simulates(deviceId, usingMock) && !attached(SensorId(deviceId))
    ensures h.Some? ==> (h.value.Simulated? <==> Simulates(deviceId, usingMock))
  {
    var id := SensorId(deviceId);
    if Contains(Lower(id), SIMULATED_MARKER) || usingMock then
      Some(Simulated(NewMockSensor(Some(DS18B20), Some(id), u)))
    else if attached(id) then
      Some(Hardware(DS18B20, id))
    else
      None
  }

  /**
   * The table `_initialize_sensors` builds: one handle per mapped name whose
   * construction succeeds.
   */
  function SensorTable(mapping: map<string, string>, usingMock: bool, attached: string -> bool, draw: string -> Fraction)
    : (table: map<string, SensorHandle>)
    ensures table.Keys <= mapping.Keys
    ensures forall n :: n in mapping ==>
      (n !in table <==> !Simulates(mapping[n], usingMock) && !attached(SensorId(mapping[n])))
    ensures forall n :: n in table ==> (table[n].Simulated? <==> Simulates(mapping[n], usingMock))
    ensures forall n :: n in table && table[n].Hardware? ==>
      table[n] == Hardware(DS18B20, SensorId(mapping[n]))
    ensures forall n :: n in table && table[n].Simulated? ==>
      table[n].mock == NewMockSensor(Some(DS18B20), Some(SensorId(mapping[n])), draw(n))
  {
    map n | n in mapping && MakeHandle(mapping[n], usingMock, attached, draw(n)).Some?
      :: MakeHandle(mapping[n], usingMock, attached, draw(n)).value
  }

  /** The part of `table` whose names are in `names`. */
  function Restrict<V>(table: map<string, V>, names: set<string>): (r: map<string, V>)
    ensures r.Keys == table.Keys * names
    ensures forall n :: n in r ==> r[n] == table[n]
  {
    map n | n in table && n in names :: table[n]
  }

  /** One visited name extends the restricted table by its handle, if it has one. */
  lemma TableStep<V>(base: map<string, V>, table: map<string, V>, done: set<string>, name: string, h: Option<V>)
    requires h.Some? <==> name in table
    requires h.Some? ==> table[name] == h.value
    ensures base + Restrict(table, done + {name}) ==
      if h.Some? then (base + Restrict(table, done))[name := h.value] else base + Restrict(table, done)
  {
  }

  // ---------------------------------------------------------------------------
  // Reading

  /** `get_temperature(unit)` on a handle; only the driver's read can fail. */
  function ReadHandle(h: SensorHandle, unit: string, u: Fraction, hw: (string, string) -> Option<real>): (r: Option<real>)
    ensures h.Simulated? ==> r.Some? && h.mock.baseTemp - JITTER <= ToCelsius(r.value, OrDefault(Some(unit), DEGREES_C)) <= h.mock.baseTemp + JITTER
    ensures h.Hardware? ==> r == hw(h.id, unit)
  {
    match h
    case Simulated(m) => Some(GetTemperature(m, Some(unit), u))
    case Hardware(_, id) => hw(id, unit)
  }

  /** The unit `read_temperature` asks for: the one given, Celsius when `None`. */
  function UnitName(unit: Option<string>): (name: string)
    ensures unit.None? ==> name == DEGREES_C
    ensures unit.Some? ==> name == unit.value
  {
    if unit.None? then DEGREES_C else unit.value
  }

  class TemperatureCollector {
    const deviceMapping: map<string, string>
    const usingMock: bool
    var sensors: map<string, SensorHandle>

    /** `__init__` with the mapping already loaded: an empty table, then `_initialize_sensors`. */
    constructor (deviceMapping: map<string, string>, usingMock: bool, attached: string -> bool, draw: string -> Fraction)
      ensures this.deviceMapping == deviceMapping && this.usingMock == usingMock
      ensures sensors == SensorTable(deviceMapping, usingMock, attached, draw)
    {
      this.deviceMapping := deviceMapping;
      this.usingMock := usingMock;
      sensors := map[];
      new;
      InitializeSensors(attached, draw);
    }

    /**
     * `_initialize_sensors`: visits every mapped name and stores the handle
     * of each one whose construction succeeds; a failure leaves the table as
     * it was for that name.
     */
    method InitializeSensors(attached: string -> bool, draw: string -> Fraction)
      modifies this
      ensures sensors == old(sensors) + SensorTable(deviceMapping, usingMock, attached, draw)
    {
      ghost var table := SensorTable(deviceMapping, usingMock, attached, draw);
      var pending := deviceMapping.Keys;
      ghost var done: set<string> := {};
      while pending != {}
        invariant pending <= deviceMapping.Keys && done == deviceMapping.Keys - pending
        invariant sensors == old(sensors) + Restrict(table, done)
        decreases pending
      {
        var name :| name in pending;
        var handle := MakeHandle(deviceMapping[name], usingMock, attached, draw(name));
        TableStep(old(sensors), table, done, name, handle);
        if handle.Some? {
          sensors := sensors[name := handle.value];
        }
        pending := pending - {name};
        done := done + {name};
      }
      assert Restrict(table, done) == table;
    }

    /**
     * `read_temperature`: `None` for a name without a handle or a failed
     * read, otherwise exactly what the handle reads.
     */
    function ReadTemperature(name: string, unit: Option<string>, u: Fraction, hw: (string, string) -> Option<real>)
      : (r: Option<real>)
      reads this
      ensures name !in sensors ==> r.None?
      ensures name in sensors && sensors[name].Simulated? ==>
        r == Some(GetTemperature(sensors[name].mock, Some(UnitName(unit)), u))
      ensures name in sensors && sensors[name].Hardware? ==> r == hw(sensors[name].id, UnitName(unit))
    {
      if name !in sensors then None
      else ReadHandle(sensors[name], UnitName(unit), u, hw)
    }

    /** The reading set of one acquisition: every mapped name whose read succeeds. */
    ghost function Readings(draw: string -> Fraction, hw: (string, string) -> Option<real>): (temps: map<string, real>)
      reads this
      ensures temps.Keys <= deviceMapping.Keys * sensors.Keys
      ensures forall n :: n in temps ==> ReadTemperature(n, None, draw(n), hw) == Some(temps[n])
      ensures forall n :: n in deviceMapping && n !in temps ==> ReadTemperature(n, None, draw(n), hw).None?
    {
      map n | n in deviceMapping && ReadTemperature(n, None, draw(n), hw).Some?
        :: ReadTemperature(n, None, draw(n), hw).value
    }

    /**
     * `read_all_temperatures`: reads every name of the mapping (not of the
     * table) in Celsius and keeps the reads that succeed.
     */
    method ReadAllTemperatures(draw: string -> Fraction, hw: (string, string) -> Option<real>)
      returns (temps: map<string, real>)
      ensures temps == Readings(draw, hw)
    {
      ghost var all := Readings(draw, hw);
      temps := map[];
      var pending := deviceMapping.Keys;
      while pending != {}
        invariant pending <= deviceMapping.Keys
        invariant temps == Restrict(all, deviceMapping.Keys - pending)
        decreases pending
      {
        var name :| name in pending;
        var temp := ReadTemperature(name, None, draw(name), hw);
        if temp.Some? {
          temps := temps[name := temp.value];
        }
        pending := pending - {name};
      }
    }

    /**
     * `monitor_continuous`, run for as many cycles as `cycles` holds (the
     * loop stops when interrupted): each cycle reads every sensor, adds the
     * efficiency entry to a non-empty reading set, and hands the result to
     * the callback when there is one. Returns the callback's payloads in order.
     */
    method MonitorContinuous(cycles: seq<CycleInputs>, hasCallback: bool)
      returns (dispatched: seq<map<string, Option<real>>>)
      ensures hasCallback ==> |dispatched| == |cycles|
      ensures hasCallback ==> forall i :: 0 <= i < |cycles| ==>
        dispatched[i] == CyclePayload(Readings(cycles[i].draw, cycles[i].hw))
      ensures !hasCallback ==> dispatched == []
    {
      dispatched := [];
      var i := 0;
      while i < |cycles|
        invariant 0 <= i <= |cycles|
        invariant hasCallback ==> |dispatched| == i
        invariant hasCallback ==> forall k :: 0 <= k < i ==>
          dispatched[k] == CyclePayload(Readings(cycles[k].draw, cycles[k].hw))
        invariant !hasCallback ==> dispatched == []
      {
        var temperatures := ReadAllTemperatures(cycles[i].draw, cycles[i].hw);
        var payload: map<string, Option<real>> := map n | n in temperatures :: Some(temperatures[n]);
        if temperatures != map[] {
          var efficiency := CalculateEfficiency(temperatures);
          payload := payload[EFFICIENCY_KEY := efficiency];
        }
        if hasCallback {
          dispatched := dispatched + [payload];
        }
        i := i + 1;
      }
    }
  }

  // ---------------------------------------------------------------------------
  // Efficiency

  /** All four measurement points have a reading. */
  predicate HasAllRequired(temps: map<string, real>)
  {
    HOT_INLET in temps && HOT_OUTLET in temps && COLD_INLET in temps && COLD_OUTLET in temps
  }

  /** `required[i]` is the first name of `required` without a reading. */
  predicate MissingFirstAt(temps: map<string, real>, required: seq<string>, i: int)
  {
    0 <= i < |required| && required[i] !in temps && forall j :: 0 <= j < i ==> required[j] in temps
  }

  /** The first name of `required` without a reading, the one the warning names. */
  function FirstMissing(temps: map<string, real>, required: seq<string>): (r: Option<string>)
    ensures r.None? <==> forall i :: 0 <= i < |required| ==> required[i] in temps
    ensures r.Some? ==> exists i :: MissingFirstAt(temps, required, i) && required[i] == r.value
  {
    if required == [] then None
    else if required[0] !in temps then
      assert MissingFirstAt(temps, required, 0);
      Some(required[0])
    else
      var r := FirstMissing(temps, required[1..]);
      if r.None? then r
      else
        var i :| MissingFirstAt(temps, required[1..], i) && required[1..][i] == r.value;
        assert MissingFirstAt(temps, required, i + 1) by {
          forall j | 0 < j < i + 1 ensures required[j] in temps {
            assert required[j] == required[1..][j - 1];
          }
        }
        r
  }

  /**
   * `calculate_efficiency`: the effectiveness (T4 - T3) / (T1 - T3) * 100,
   * or `None` when a reading is missing or the two inlets are equal. The
   * result is the percentage r with r * (T1 - T3) == 100 * (T4 - T3); it is
   * not clamped.
   */
  function CalculateEfficiency(temps: map<string, real>): (r: Option<real>)
    ensures r.Some? <==> HasAllRequired(temps) && temps[HOT_INLET] != temps[COLD_INLET]
    ensures r.Some? ==>
      r.value * (temps[HOT_INLET] - temps[COLD_INLET]) == 100.0 * (temps[COLD_OUTLET] - temps[COLD_INLET])
  {
    if FirstMissing(temps, REQUIRED_SENSORS).Some? then None
    else
      assert REQUIRED_SENSORS[0] in temps && REQUIRED_SENSORS[1] in temps;
      assert REQUIRED_SENSORS[2] in temps && REQUIRED_SENSORS[3] in temps;
      var t1 := temps[HOT_INLET];
      var t3 := temps[COLD_INLET];
      var t4 := temps[COLD_OUTLET];
      if t1 - t3 == 0.0 then None
      else Some((t4 - t3) / (t1 - t3) * 100.0)
  }

  // ---------------------------------------------------------------------------
  // Monitor cycle

  /**
   * What one monitor cycle hands to the callback: the readings, plus an
   * `Efficiency` entry (possibly `None`) when there is at least one reading.
   */
  function CyclePayload(temps: map<string, real>): (p: map<string, Option<real>>)
    ensures temps == map[] ==> p == map[]
    ensures temps != map[] ==> p.Keys == temps.Keys + {EFFICIENCY_KEY}
    ensures temps != map[] ==> p[EFFICIENCY_KEY] == CalculateEfficiency(temps)
    ensures forall n :: n in temps && n != EFFICIENCY_KEY ==> p[n] == Some(temps[n])
  {
    var readings := map n | n in temps :: Some(temps[n]);
    if temps == map[] then readings
    else readings[EFFICIENCY_KEY := CalculateEfficiency(temps)]
  }

  // ---------------------------------------------------------------------------
  // Properties of the sensor table

  /**
   * The family code is removed wherever it occurs, not only in front: up to
   * its first occurrence the id is kept, that occurrence is dropped, and the
   * rest is stripped in turn.
   */
  lemma {:induction false} FamilyCodeRemovedEverywhere(x: string, y: string)
    requires !Contains(x, FAMILY_PREFIX)
    ensures SensorId(x + FAMILY_PREFIX + y) == x + SensorId(y)
  {
    var s := x + FAMILY_PREFIX + y;
    if x == [] {
      assert s == FAMILY_PREFIX + y && FAMILY_PREFIX <= s && s[|FAMILY_PREFIX|..] == y;
    } else {
      assert s[0] == x[0] && s[1..] == x[1..] + FAMILY_PREFIX + y;
      assert !Contains(x[1..], FAMILY_PREFIX);
      FamilyCodeNotAtFront(x, y);
      assert SensorId(s) == [s[0]] + SensorId(s[1..]);
      FamilyCodeRemovedEverywhere(x[1..], y);
      assert [x[0]] + x[1..] == x;
    }
  }

  /** Two occurrences are both removed: "28-" + a + "28-" + b becomes a + b. */
  lemma FamilyCodeTwice(a: string, b: string)
    requires !Contains(a, FAMILY_PREFIX) && !Contains(b, FAMILY_PREFIX)
    ensures SensorId(FAMILY_PREFIX + a + FAMILY_PREFIX + b) == a + b
  {
    var rest := a + FAMILY_PREFIX + b;
    assert [] + FAMILY_PREFIX + rest == FAMILY_PREFIX + a + FAMILY_PREFIX + b;
    FamilyCodeRemovedEverywhere([], rest);
    FamilyCodeRemovedEverywhere(a, b);
    assert SensorId(rest) == a + SensorId(b);
    assert SensorId(b) == b;
  }

  /** The id "28-ab28-cd" is handed on as "abcd". */
  lemma FamilyCodeTwiceExample()
    ensures SensorId("28-ab28-cd") == "abcd"
  {
    assert !Contains("ab", FAMILY_PREFIX) && !Contains("cd", FAMILY_PREFIX);
    FamilyCodeTwice("ab", "cd");
    assert FAMILY_PREFIX + "ab" + FAMILY_PREFIX + "cd" == "28-ab28-cd";
  }

  /**
   * The family code cannot start in front of an occurrence of itself: "28-"
   * does not overlap itself, so x + "28-" + y does not start with it when x
   * is non-empty and free of it.
   */
  lemma FamilyCodeNotAtFront(x: string, y: string)
    requires x != [] && !Contains(x, FAMILY_PREFIX)
    ensures !(FAMILY_PREFIX <= x + FAMILY_PREFIX + y)
  {
    var s := x + FAMILY_PREFIX + y;
    if |x| >= |FAMILY_PREFIX| {
      assert s[..3] == x[..3];
      assert !(FAMILY_PREFIX <= x);
    } else if |x| == 1 {
      assert s[1] == '2' && FAMILY_PREFIX[1] == '8';
    } else {
      assert s[2] == '2' && FAMILY_PREFIX[2] == '-';
    }
  }

  /** A digit-only id never holds the family code, so "28-" + id is handed on as id. */
  lemma FamilyCodeOfDigitId(id: string)
    requires IsDigits(id)
    ensures SensorId(FAMILY_PREFIX + id) == id
  {
    if Contains(id, FAMILY_PREFIX) {
      ContainsChar(id, FAMILY_PREFIX, 2);
      assert false;
    }
    assert !Contains([], FAMILY_PREFIX);
    FamilyCodeRemovedEverywhere([], id);
    assert [] + FAMILY_PREFIX + id == FAMILY_PREFIX + id;
  }

  /**
   * Without the mock driver, "28-" followed by a digit-only id is bound to
   * the hardware driver: no digit string holds the "simulated" marker.
   */
  lemma DigitIdIsHardware(id: string)
    requires IsDigits(id)
    ensures !Simulates(FAMILY_PREFIX + id, false)
  {
    FamilyCodeOfDigitId(id);
    LowerOfLower(id);
    if Contains(id, SIMULATED_MARKER) {
      ContainsChar(id, SIMULATED_MARKER, 0);
      assert false;
    }
  }

  /** With the mock driver every mapped name gets a simulated handle: the table covers the mapping. */
  lemma MockModeBuildsEverySensor(mapping: map<string, string>, attached: string -> bool, draw: string -> Fraction)
    ensures SensorTable(mapping, true, attached, draw).Keys == mapping.Keys
    ensures forall n :: n in mapping ==> SensorTable(mapping, true, attached, draw)[n].Simulated?
  {
  }

  /** The device ids of the test configuration: the four known suffixes behind the family code. */
  const TEST_CONFIG := map[
    HOT_INLET := FAMILY_PREFIX + HOT_INLET_SUFFIX,
    HOT_OUTLET := FAMILY_PREFIX + HOT_OUTLET_SUFFIX,
    COLD_INLET := FAMILY_PREFIX + COLD_INLET_SUFFIX,
    COLD_OUTLET := FAMILY_PREFIX + COLD_OUTLET_SUFFIX]

  /** T1..T4 are four distinct names. */
  lemma FourSensorNames()
    ensures |{HOT_INLET, HOT_OUTLET, COLD_INLET, COLD_OUTLET}| == 4
  {
    assert HOT_INLET[1] == '1' && HOT_OUTLET[1] == '2' && COLD_INLET[1] == '3' && COLD_OUTLET[1] == '4';
    assert |{HOT_INLET, HOT_OUTLET}| == 2;
    assert |{HOT_INLET, HOT_OUTLET, COLD_INLET}| == 3;
  }

  /** The test configuration in mock mode gives exactly the four sensors T1..T4. */
  lemma TestConfigHasFourSensors(attached: string -> bool, draw: string -> Fraction)
    ensures SensorTable(TEST_CONFIG, true, attached, draw).Keys == {HOT_INLET, HOT_OUTLET, COLD_INLET, COLD_OUTLET}
    ensures |SensorTable(TEST_CONFIG, true, attached, draw)| == 4
  {
    MockModeBuildsEverySensor(TEST_CONFIG, attached, draw);
    assert TEST_CONFIG.Keys == {HOT_INLET, HOT_OUTLET, COLD_INLET, COLD_OUTLET};
    FourSensorNames();
  }

  /** In mock mode, an entry "28-" + the k-th known suffix gets a simulated sensor with the k-th known base. */
  lemma MockEntryBase(mapping: map<string, string>, attached: string -> bool, draw: string -> Fraction,
                      name: string, k: nat)
    requires k < |KNOWN_SUFFIXES| && name in mapping && mapping[name] == FAMILY_PREFIX + KNOWN_SUFFIXES[k]
    ensures var table := SensorTable(mapping, true, attached, draw);
      name in table && table[name].Simulated? && table[name].mock.baseTemp == KNOWN_BASES[k]
  {
    FamilyCodeOfDigitId(KNOWN_SUFFIXES[k]);
    KnownIdBase(k, draw(name));
  }

  /** In the test configuration, the k-th sensor's simulated base is the k-th known base. */
  lemma TestConfigBases(attached: string -> bool, draw: string -> Fraction, k: nat)
    requires k < |REQUIRED_SENSORS|
    ensures var table := SensorTable(TEST_CONFIG, true, attached, draw);
      REQUIRED_SENSORS[k] in table && table[REQUIRED_SENSORS[k]].Simulated? &&
      table[REQUIRED_SENSORS[k]].mock.baseTemp == KNOWN_BASES[k]
  {
    var name := REQUIRED_SENSORS[k];
    if k == 0 {
      assert TEST_CONFIG[HOT_INLET] == FAMILY_PREFIX + KNOWN_SUFFIXES[0];
    } else if k == 1 {
      assert TEST_CONFIG[HOT_OUTLET] == FAMILY_PREFIX + KNOWN_SUFFIXES[1];
    } else if k == 2 {
      assert TEST_CONFIG[COLD_INLET] == FAMILY_PREFIX + KNOWN_SUFFIXES[2];
    } else {
      assert TEST_CONFIG[COLD_OUTLET] == FAMILY_PREFIX + KNOWN_SUFFIXES[3];
    }
    MockEntryBase(TEST_CONFIG, attached, draw, name, k);
  }

  // ---------------------------------------------------------------------------
  // Properties of reading

  /**
   * When every mapped name has a handle and every hardware read succeeds,
   * the reading set covers the whole mapping.
   */
  lemma ReadingsComplete(c: TemperatureCollector, draw: string -> Fraction, hw: (string, string) -> Option<real>)
    requires c.deviceMapping.Keys <= c.sensors.Keys
    requires forall n :: n in c.deviceMapping && c.sensors[n].Hardware? ==> hw(c.sensors[n].id, DEGREES_C).Some?
    ensures c.Readings(draw, hw).Keys == c.deviceMapping.Keys
  {
    forall n | n in c.deviceMapping
      ensures n in c.Readings(draw, hw)
    {
      assert c.ReadTemperature(n, None, draw(n), hw).Some?;
    }
  }

  /** A collector built from the test configuration in mock mode reads all four sensors in every cycle. */
  lemma TestConfigReadsFourSensors(c: TemperatureCollector, attached: string -> bool, draw0: string -> Fraction,
                                   draw: string -> Fraction, hw: (string, string) -> Option<real>)
    requires c.deviceMapping == TEST_CONFIG && c.sensors == SensorTable(TEST_CONFIG, true, attached, draw0)
    ensures c.Readings(draw, hw).Keys == {HOT_INLET, HOT_OUTLET, COLD_INLET, COLD_OUTLET}
    ensures |c.Readings(draw, hw)| == 4
  {
    TestConfigHasFourSensors(attached, draw0);
    ReadingsComplete(c, draw, hw);
  }

  /**
   * In the mock-mode test configuration the hot inlet T1 reads strictly
   * between 80 and 90 degrees and the cold inlet T3 strictly between 10 and 20.
   */
  lemma TestConfigInletRanges(c: TemperatureCollector, attached: string -> bool, draw0: string -> Fraction,
                              draw: string -> Fraction, hw: (string, string) -> Option<real>)
    requires c.deviceMapping == TEST_CONFIG && c.sensors == SensorTable(TEST_CONFIG, true, attached, draw0)
    ensures var t := c.Readings(draw, hw);
      HOT_INLET in t && 80.0 < t[HOT_INLET] < 90.0 && COLD_INLET in t && 10.0 < t[COLD_INLET] < 20.0
  {
    TestConfigReadsFourSensors(c, attached, draw0, draw, hw);
    TestConfigBases(attached, draw0, 0);
    TestConfigBases(attached, draw0, 2);
  }

  /**
   * A single read of any of T1..T4 from the mock-mode test collector gives a
   * value strictly between 0 and 100 degrees.
   */
  lemma TestConfigSingleRead(c: TemperatureCollector, attached: string -> bool, draw0: string -> Fraction,
                             k: nat, u: Fraction, hw: (string, string) -> Option<real>)
    requires c.deviceMapping == TEST_CONFIG && c.sensors == SensorTable(TEST_CONFIG, true, attached, draw0)
    requires k < |REQUIRED_SENSORS|
    ensures var r := c.ReadTemperature(REQUIRED_SENSORS[k], None, u, hw);
      r.Some? && 0.0 < r.value < 100.0
  {
    TestConfigBases(attached, draw0, k);
    var m := c.sensors[REQUIRED_SENSORS[k]].mock;
    assert c.ReadTemperature(REQUIRED_SENSORS[k], None, u, hw) == Some(GetTemperature(m, Some(DEGREES_C), u));
    assert 15.0 <= m.baseTemp <= 85.0;
  }

  // ---------------------------------------------------------------------------
  // Properties of the efficiency

  /** With all four readings and distinct inlets the result is the effectiveness formula. */
  lemma EfficiencyFormula(temps: map<string, real>)
    requires HasAllRequired(temps) && temps[HOT_INLET] != temps[COLD_INLET]
    ensures CalculateEfficiency(temps) ==
      Some((temps[COLD_OUTLET] - temps[COLD_INLET]) / (temps[HOT_INLET] - temps[COLD_INLET]) * 100.0)
  {
  }

  /** A missing measurement point makes the efficiency unavailable, whatever else is present. */
  lemma EfficiencyMissingReading(temps: map<string, real>, name: string)
    requires name in REQUIRED_SENSORS && name !in temps
    ensures CalculateEfficiency(temps).None?
  {
  }

  /** Equal inlets make the efficiency unavailable, whatever T2 and T4 are. */
  lemma EfficiencyEqualInlets(temps: map<string, real>)
    requires HOT_INLET in temps && COLD_INLET in temps && temps[HOT_INLET] == temps[COLD_INLET]
    ensures CalculateEfficiency(temps).None?
  {
  }

  /**
   * The efficiency depends only on T1, T3 and T4 (and on T2 being present):
   * readings that agree there, whatever T2's value or other keys, give the same result.
   */
  lemma EfficiencyDependsOnInletsAndColdOutlet(a: map<string, real>, b: map<string, real>)
    requires HasAllRequired(a) && HasAllRequired(b)
    requires a[HOT_INLET] == b[HOT_INLET] && a[COLD_INLET] == b[COLD_INLET] && a[COLD_OUTLET] == b[COLD_OUTLET]
    ensures CalculateEfficiency(a) == CalculateEfficiency(b)
  {
  }

  /** Adding or changing a key outside T1..T4, such as "Efficiency", leaves the result unchanged. */
  lemma EfficiencyIgnoresOtherKeys(temps: map<string, real>, key: string, value: real)
    requires key !in REQUIRED_SENSORS
    ensures CalculateEfficiency(temps[key := value]) == CalculateEfficiency(temps)
  {
    assert HasAllRequired(temps[key := value]) == HasAllRequired(temps);
  }

  /** The test case T1 = 85, T2 = 45, T3 = 15, T4 = 55 gives 400/7, about 57.14 percent. */
  lemma EfficiencyTestCase()
    ensures var r := CalculateEfficiency(map[HOT_INLET := 85.0, HOT_OUTLET := 45.0, COLD_INLET := 15.0, COLD_OUTLET := 55.0]);
      r == Some(400.0 / 7.0) && 57.14 - 0.5 < r.value < 57.14 + 0.5
  {
    var temps := map[HOT_INLET := 85.0, HOT_OUTLET := 45.0, COLD_INLET := 15.0, COLD_OUTLET := 55.0];
    assert HasAllRequired(temps);
    EfficiencyFormula(temps);
  }

  /** For a normal flow (cold outlet between the two inlets) the result is a percentage in [0, 100]. */
  lemma EfficiencyNormalFlowInRange(temps: map<string, real>)
    requires HasAllRequired(temps)
    requires temps[COLD_INLET] < temps[HOT_INLET]
    requires temps[COLD_INLET] <= temps[COLD_OUTLET] <= temps[HOT_INLET]
    ensures CalculateEfficiency(temps).Some?
    ensures 0.0 <= CalculateEfficiency(temps).value <= 100.0
  {
    var r := CalculateEfficiency(temps).value;
    var d := temps[HOT_INLET] - temps[COLD_INLET];
    var rise := temps[COLD_OUTLET] - temps[COLD_INLET];
    assert r * d == 100.0 * rise;
    assert (100.0 - r) * d == 100.0 * (d - rise);
  }

  /** The result is not clamped: it can exceed 100 and it can be negative. */
  lemma EfficiencyNotClamped()
    ensures CalculateEfficiency(map[HOT_INLET := 20.0, HOT_OUTLET := 15.0, COLD_INLET := 10.0, COLD_OUTLET := 30.0]) == Some(200.0)
    ensures CalculateEfficiency(map[HOT_INLET := 20.0, HOT_OUTLET := 15.0, COLD_INLET := 10.0, COLD_OUTLET := 5.0]) == Some(-50.0)
  {
    var over := map[HOT_INLET := 20.0, HOT_OUTLET := 15.0, COLD_INLET := 10.0, COLD_OUTLET := 30.0];
    var under := map[HOT_INLET := 20.0, HOT_OUTLET := 15.0, COLD_INLET := 10.0, COLD_OUTLET := 5.0];
    assert HasAllRequired(over) && HasAllRequired(under);
    EfficiencyFormula(over);
    EfficiencyFormula(under);
  }

  // ---------------------------------------------------------------------------
  // Properties of the monitor cycle

  /**
   * A cycle of the mock-mode test collector always carries an available
   * efficiency: the hot inlet reads above 80, the cold inlet below 20.
   */
  lemma TestConfigCycleHasEfficiency(c: TemperatureCollector, attached: string -> bool, draw0: string -> Fraction,
                                     draw: string -> Fraction, hw: (string, string) -> Option<real>)
    requires c.deviceMapping == TEST_CONFIG && c.sensors == SensorTable(TEST_CONFIG, true, attached, draw0)
    ensures var p := CyclePayload(c.Readings(draw, hw));
      EFFICIENCY_KEY in p && p[EFFICIENCY_KEY].Some?
  {
    var t := c.Readings(draw, hw);
    TestConfigReadsFourSensors(c, attached, draw0, draw, hw);
    TestConfigInletRanges(c, attached, draw0, draw, hw);
    assert HOT_INLET in t && HOT_OUTLET in t && COLD_INLET in t && COLD_OUTLET in t;
    assert t[HOT_INLET] != t[COLD_INLET];
    assert t != map[];
  }
}
