/** The record types and constants of `src/metar.h`: a decoded report
    (`metar_t`), one cloud layer (`cloud_t`) and the sentinel values the
    decoder writes. The two linked lists of `metar_t` (`cloud_list_t`,
    `phenomena_list_t`) are sequences whose order is the node order. */
module MetarH {

  /** Values of `print_altitude` (in cloud layers and dictionary entries). */
  const PRINT_BASE: int := 1
  const DONT_PRINT_BASE: int := 0
  const NOT_APPLICABLE: int := -1

  /** Values of `maintenance_needed`. */
  const MAINTENANCE_NOT_NEEDED: int := 0
  const MAINTENANCE_NEEDED: int := 1

  /** `winddir` when the wind is reported as variable. */
  const VARIABLE_WIND: int := -1

  /** Sizes of the fixed character buffers of `metar_t`. */
  const STATION_SIZE: nat := 10
  const UNIT_SIZE: nat := 5

  /** `cloud_t`: cover description, base in hundreds of feet (-1 when there
      is no layer), whether the base is shown, and the type modifier. */
  datatype CloudLayer = CloudLayer(
    amount: string,
    layerAltitude: int,
    printAltitude: int,
    layerModifier: string)

  /** `metar_t`. Each `char[]` buffer is held as the C string it contains. */
  datatype MetarRecord = MetarRecord(
    station: string,
    day: int,
    time: int,
    winddir: int,
    windstr: int,
    windgust: int,
    windunit: string,
    vis: int,
    visunit: string,
    qnh: int,
    qnhunit: string,
    qnhfp: int,
    temp: int,
    dewp: int,
    maintenanceNeeded: int,
    clouds: seq<CloudLayer>,
    phenomena: seq<string>)

  /** The record right after `memset(metar, 0, ..)` and
      `maintenance_needed = MAINTENANCE_NOT_NEEDED`. */
  const Cleared: MetarRecord :=
    MetarRecord("", 0, 0, 0, 0, 0, "", 0, "", 0, "", 0, 0, 0, MAINTENANCE_NOT_NEEDED, [], [])

  predicate IsPrintAltitude(p: int)
  {
    p == PRINT_BASE || p == DONT_PRINT_BASE || p == NOT_APPLICABLE
  }

  predicate IsMaintenanceFlag(f: int)
  {
    f == MAINTENANCE_NOT_NEEDED || f == MAINTENANCE_NEEDED
  }

  /** The header's promises about a decoded record: `winddir` is the
      variable-wind sentinel or a degree value, `maintenance_needed` and
      every `print_altitude` take only their defined values, `qnhfp` is the
      number of decimal places implied by a unit, and every character
      buffer fits its declared size. */
  predicate WellFormed(m: MetarRecord)
  {
    && |m.station| <= STATION_SIZE
    && |m.windunit| <= UNIT_SIZE && |m.visunit| <= UNIT_SIZE && |m.qnhunit| <= UNIT_SIZE
    && (m.winddir == VARIABLE_WIND || 0 <= m.winddir)
    && IsMaintenanceFlag(m.maintenanceNeeded)
    && (m.qnhfp == 0 || m.qnhfp == 2)
    && forall i :: 0 <= i < |m.clouds| ==> IsPrintAltitude(m.clouds[i].printAltitude)
  }

  lemma ClearedWellFormed()
    ensures WellFormed(Cleared)
  {
  }
}
