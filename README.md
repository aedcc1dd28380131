# Heat-exchanger temperature collector, modelled in Dafny

This project models the core of HeatExchangerMonitor. It covers the
temperature collector that samples four one-wire DS18B20 sensors on a heat
exchanger (hot inlet T1, hot outlet T2, cold inlet T3, cold outlet T4). It
also covers the simulated sensor that replaces the driver when no hardware
is present.

- `strings.dfy` (module `Strings`): the Python `str` operations the code
  uses: `lower()`, `in`, `endswith()` and `replace(pat, "")`.
- `mock_sensor.dfy` (module `MockW1Therm`): the simulated sensor as an
  immutable value. It has a base temperature chosen by rules on its id,
  readings that add a jitter in [-2, 2], and unit conversion.
- `collector.dfy` (module `Collector`): the class `TemperatureCollector`.
  Its `sensors` table is filled in place at construction. It has
  single-sensor and bulk reads, the effectiveness
  `(T4 - T3) / (T1 - T3) * 100` with its "unavailable" cases, and the
  monitor loop that hands each cycle's readings to a callback.
- `wrappers.dfy` (module `Wrappers`): `Option`, which stands for Python's
  `None`.

Inputs from outside the program are explicit parameters:
- Each `random.random()` draw is a `Fraction` in [0, 1].
  `random.uniform(a, b)` is `a + (b - a) * u`.
- `attached(id)` says whether the hardware driver's constructor finds the
  device. When it does not, the constructor raises.
- `hw(id, unit)` is the driver's read. It may fail (`None`).
- `usingMock` says whether the driver name is bound to the simulated sensor.
  The source derives this from an environment variable and a failed import.

Temperatures are `real`.

Two behaviours of the code worth noting:
- When the efficiency is unavailable, a monitor cycle still adds
  `'Efficiency': None` to a non-empty reading set. The set is not left
  without that entry.
- `device_id.replace("28-", "")` removes every occurrence of the family
  code, not only a leading prefix.

## Model

| member | source | states |
|---|---|---|
| `Strings.Lower` | therm/mock_w1thermsensor.py:45 | `str.lower()` keeps the length and lower-cases each character on its own; a string with no upper-case letter is unchanged (`Strings.LowerOfLower`) |
| `Strings.Contains` | therm/temperature_collector.py:74 | the `in` test on strings succeeds only when the needle is no longer than the haystack |
| `Strings.ContainsIffOccurs` | therm/mock_w1thermsensor.py:48 | `sub in s` holds exactly when `sub` occurs at some index of `s` |
| `Strings.EndsWith` | therm/mock_w1thermsensor.py:51-58 | `s.endswith(suf)` holds exactly when `s` is some prefix followed by `suf` |
| `Strings.RemoveAll` | therm/temperature_collector.py:73 | `s.replace(pat, "")` never lengthens its input, and leaves it unchanged exactly when `pat` does not occur in it |
| `MockW1Therm.Uniform` | therm/mock_w1thermsensor.py:76 | `random.uniform(a, b)` stays within [a, b] |
| `MockW1Therm.OrDefault` | therm/mock_w1thermsensor.py:36-37 | `x or default`: `None` and the empty string fall back to the default, any other value is kept |
| `MockW1Therm.BaseTemperature` | therm/mock_w1thermsensor.py:43-61 | every rule gives a base in [15, 85]; an id whose lower-case form contains "mock" gets a base in [20, 25] |
| `MockW1Therm.NewMockSensor` | therm/mock_w1thermsensor.py:28-41 | the type and id fall back to DS18B20 and "mock_sensor"; the base is fixed once, at construction, in [15, 85] |
| `MockW1Therm.FromCelsius` | therm/mock_w1thermsensor.py:79-85 | converting a Celsius value to a unit and back gives the value again, for Fahrenheit, Kelvin and Celsius alike |
| `MockW1Therm.GetTemperature` | therm/mock_w1thermsensor.py:63-85 | every reading, taken back to Celsius, lies within 2 degrees of the sensor's base; `None`, "" or an unrecognised unit give Celsius |
| `MockW1Therm.GetId` | therm/mock_w1thermsensor.py:87-89 | the id reported is the id the sensor was built with; a sensor built without one reports "mock_sensor" (`MockW1Therm.ConstructionDefaults`) |
| `MockW1Therm.GetAvailableSensors` | therm/mock_w1thermsensor.py:91-98 | exactly four DS18B20 sensors with the four known ids and bases 85, 45, 15 and 55, in that order |
| `MockW1Therm.KnownSuffixBase` | therm/mock_w1thermsensor.py:51-58 | an id that does not contain "mock" and ends with a known suffix gets that suffix's fixed base, whatever the draw |
| `MockW1Therm.KnownIdBase` | therm/mock_w1thermsensor.py:51-58 | each known suffix used verbatim as an id gets its fixed base |
| `MockW1Therm.SuffixesExclusive` | therm/mock_w1thermsensor.py:51-58 | no id ends with two known suffixes, so only the precedence of the "mock" rule matters, not the order of the suffix rules |
| `MockW1Therm.DefaultIdIsMock` | therm/mock_w1thermsensor.py:37 | a missing or empty id becomes "mock_sensor", whose base lies in [20, 25] |
| `MockW1Therm.ConstructionDefaults` | therm/mock_w1thermsensor.py:87-89 | a missing or empty type becomes DS18B20; `get_id` returns the non-empty id given at construction |
| `MockW1Therm.UnitConversion` | therm/mock_w1thermsensor.py:80-85 | for one draw, Fahrenheit is C * 9 / 5 + 32, Kelvin is C + 273.15, and any other unit name reads as Celsius |
| `MockW1Therm.KnownSensorReading` | therm/mock_w1thermsensor.py:76-77 | a sensor with a known suffix reads within 2 degrees of that suffix's base |
| `MockW1Therm.HotInletReadingRange` | tests/test_temperature_collector.py:226-229 | a hot-inlet sensor reads strictly between 80 and 90 degrees Celsius |
| `MockW1Therm.ColdInletReadingRange` | tests/test_temperature_collector.py:231-234 | a cold-inlet sensor reads strictly between 10 and 20 degrees Celsius |
| `MockW1Therm.AnyReadingRange` | tests/test_temperature_collector.py:221-224 | any simulated sensor reads within [13, 87], so strictly between -50 and 150 degrees Celsius |
| `Collector.SensorId` | therm/temperature_collector.py:73 | the id handed to a sensor is no longer than the device id, and equals it exactly when the id holds no "28-" |
| `Collector.Simulates` | therm/temperature_collector.py:74 | with the mock driver in use every entry is simulated; otherwise an entry is simulated exactly when its id, family code removed and lower-cased, holds "simulated" |
| `Collector.DigitIdIsHardware` | therm/temperature_collector.py:73-77 | without the mock driver, "28-" followed by a digit-only id is bound to the hardware driver |
| `Collector.MakeHandle` | therm/temperature_collector.py:71-81 | construction fails exactly when the entry is not simulated and the driver does not find the device; the handle is simulated exactly when the id says "simulated" or the mock driver is in use |
| `Collector.SensorTable` | therm/temperature_collector.py:68-81 | the table's names are mapped names; a mapped name is absent exactly when its construction failed; each handle is the simulated or hardware sensor built from the stripped id |
| `Collector.ReadHandle` | therm/temperature_collector.py:102-108 | a simulated handle always reads, within 2 degrees of its base; a hardware handle returns what the driver returns, failure included |
| `Collector.TemperatureCollector.constructor` | therm/temperature_collector.py:40-51 | the collector keeps the mapping and the mode, and its table is the one `_initialize_sensors` builds from an empty table |
| `Collector.TemperatureCollector.InitializeSensors` | therm/temperature_collector.py:68-81 | the new table is the old one overwritten with the handle of every mapped name whose construction succeeds |
| `Collector.UnitName` | therm/temperature_collector.py:98-100 | a missing unit is read as Celsius; a given unit is passed on unchanged |
| `Collector.TemperatureCollector.ReadTemperature` | therm/temperature_collector.py:83-108 | `None` for a name without a handle; a simulated handle always reads; a hardware handle gives the driver's result, `None` when the read fails; the unit defaults to Celsius |
| `Collector.TemperatureCollector.Readings` | therm/temperature_collector.py:117-126 | the reading set's names are both mapped and in the table; each value is that sensor's successful read; a mapped name is left out only when its read gave `None` |
| `Collector.TemperatureCollector.ReadAllTemperatures` | therm/temperature_collector.py:110-126 | the loop over the mapping's names builds exactly the reading set |
| `Collector.TemperatureCollector.MonitorContinuous` | therm/temperature_collector.py:175-203 | with a callback, n cycles give n payloads in order, the i-th being the payload of the i-th cycle's readings, the empty map included; without a callback nothing is dispatched |
| `Collector.FirstMissing` | therm/temperature_collector.py:141-147 | `None` exactly when every required name has a reading; otherwise the first required name without one, the one the warning names |
| `Collector.CalculateEfficiency` | therm/temperature_collector.py:128-173 | available exactly when all of T1..T4 are present and T1 != T3; then the result r satisfies r * (T1 - T3) == 100 * (T4 - T3) |
| `Collector.CyclePayload` | therm/temperature_collector.py:186-197 | an empty reading set is passed on empty; otherwise every reading is kept unchanged and an `Efficiency` entry holding the efficiency, possibly `None`, is added |
| `Collector.FamilyCodeRemovedEverywhere` | therm/temperature_collector.py:73 | the family code is removed wherever it occurs: for x free of "28-", the id of x + "28-" + y is x followed by the id of y, whatever y holds |
| `Collector.FamilyCodeTwice` | therm/temperature_collector.py:73 | both occurrences are removed: "28-" + a + "28-" + b becomes a + b |
| `Collector.FamilyCodeTwiceExample` | therm/temperature_collector.py:73 | the device id "28-ab28-cd" is handed on as "abcd" |
| `Collector.FamilyCodeOfDigitId` | therm/temperature_collector.py:73 | "28-" followed by a digit-only id is handed on as that id |
| `Collector.MockModeBuildsEverySensor` | therm/temperature_collector.py:70-78 | with the mock driver every mapped name gets a simulated handle |
| `Collector.TestConfigHasFourSensors` | tests/test_temperature_collector.py:160-163 | the test configuration in mock mode gives exactly the four sensors T1..T4 |
| `Collector.TestConfigBases` | tests/test_temperature_collector.py:23-30 | in the test configuration T1..T4 get the simulated bases 85, 45, 15 and 55 |
| `Collector.ReadingsComplete` | therm/temperature_collector.py:121-124 | when every mapped name has a handle and every hardware read succeeds, the reading set covers the whole mapping |
| `Collector.TestConfigSingleRead` | tests/test_temperature_collector.py:170-179 | a single read of any of T1..T4 from the mock-mode test collector gives a value strictly between 0 and 100 |
| `Collector.TestConfigReadsFourSensors` | tests/test_temperature_collector.py:181-184 | the mock-mode test collector reads all four sensors in every acquisition |
| `Collector.TestConfigInletRanges` | tests/test_temperature_collector.py:25-30 | in the mock-mode test collector T1 reads strictly between 80 and 90, and T3 strictly between 10 and 20 |
| `Collector.EfficiencyFormula` | therm/temperature_collector.py:164 | with all four readings and distinct inlets the result is (T4 - T3) / (T1 - T3) * 100 |
| `Collector.EfficiencyMissingReading` | therm/temperature_collector.py:141-147 | any missing one of T1..T4 makes the result `None`, whatever else is present |
| `Collector.EfficiencyEqualInlets` | therm/temperature_collector.py:160-162 | T1 == T3 makes the result `None`, whatever T2 and T4 are |
| `Collector.EfficiencyDependsOnInletsAndColdOutlet` | therm/temperature_collector.py:149-169 | two complete reading sets that agree on T1, T3 and T4 give the same result, whatever T2 is |
| `Collector.EfficiencyIgnoresOtherKeys` | therm/temperature_collector.py:141-169 | adding or changing a key outside T1..T4, such as `Efficiency`, leaves the result unchanged |
| `Collector.EfficiencyTestCase` | tests/test_temperature_collector.py:93-98 | T1 = 85, T2 = 45, T3 = 15, T4 = 55 gives 400/7, within 0.5 of 57.14 |
| `Collector.EfficiencyNormalFlowInRange` | therm/temperature_collector.py:164-169 | when T3 < T1 and T3 <= T4 <= T1 the result is available and lies in [0, 100] |
| `Collector.EfficiencyNotClamped` | therm/temperature_collector.py:164-169 | the result is not clamped: T1 = 20, T3 = 10 gives 200 for T4 = 30 and -50 for T4 = 5 |
| `Collector.TestConfigCycleHasEfficiency` | therm/temperature_collector.py:189-191 | a cycle of the mock-mode test collector always carries an available efficiency beside its four readings |

## Left out

- Loading the device mapping from JSON (`_load_device_mapping`, path resolution, file-not-found and malformed-JSON errors). The mapping is a constructor parameter.
- Choosing the driver from the `USE_MOCK_SENSORS` environment variable and the import fallback. This choice is the `usingMock` constructor parameter.
- The real one-wire driver. It is replaced by the `attached` (construction) and `hw` (read) parameters.
- `random`: each draw is an explicit `Fraction` parameter. Nothing models the draws' distribution.
- `_log_reading`: appending to a log file, timestamps and text formatting.
- Logging calls, `time.sleep`, and stopping the loop with `KeyboardInterrupt`. The monitor runs one cycle per element of its `cycles` argument. The interrupt is the end of that sequence.
- Exceptions raised by the callback itself.
- `main()`: console setup and interactive prompts.
- The Web PubSub publisher, `runner.py`, `setup.py` and the package `__init__`.
- Floating point. Temperatures are exact reals, so rounding, overflow and NaN are not modelled. For finite floats, `T1 - T3 == 0` holds exactly when `T1 == T3`.
- Insertion order of Python dicts. The mapping, the sensor table and the reading sets are Dafny maps. Order affects only the log line and the payload's iteration order.
- `Collector.CycleInputs`: the driver-read oracle `hw` is keyed by device id, so two names bound to the same hardware device read the same value within one acquisition, where the source makes two separate reads that may differ.
- `Strings.Lower`: lower-cases only ASCII letters, where Python's `str.lower` covers all of Unicode.
- The real driver's `Unit` enumeration: units are the mock's unit names in both modes, so a simulated sensor given the real enumeration's Fahrenheit or Kelvin (which it would read as Celsius) is not modelled.
