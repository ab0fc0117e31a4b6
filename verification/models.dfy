/**
 * The relational schema: the three row types keyed by `id`, their foreign
 * keys, the column values the query layer sees through `to_dict`, and the
 * guard that creates the tables.
 */
module Models {
  import opened Wrappers
  import opened Strings

  /** A calendar date, as a PostgreSQL `Date` column holds it. */
  datatype Date = Date(year: int, month: int, day: int)

  predicate IsLeapYear(y: int) {
    y % 4 == 0 && (y % 100 != 0 || y % 400 == 0)
  }

  function DaysInMonth(y: int, m: int): int
    requires 1 <= m <= 12
  {
    if m == 2 then (if IsLeapYear(y) then 29 else 28)
    else if m == 4 || m == 6 || m == 9 || m == 11 then 30
    else 31
  }

  predicate ValidDate(d: Date) {
    1 <= d.year <= 9999 && 1 <= d.month <= 12 && 1 <= d.day <= DaysInMonth(d.year, d.month)
  }

  /** The dates a `Date` column can hold. */
  type CalendarDate = d: Date | ValidDate(d) witness Date(2000, 1, 1)

  /**
   * Reads the date at the head of an ISO text such as "2006-03-24" or
   * "2006-03-24T22:30:00.000Z", the forms the upstream API sends and the
   * database accepts for a `Date` column; anything else is rejected.
   */
  function ParseDate(s: string): Option<CalendarDate> {
    if |s| >= 10 && AllDigits(s[..4]) && s[4] == '-' && AllDigits(s[5..7]) && s[7] == '-'
       && AllDigits(s[8..10]) && (|s| == 10 || s[10] == 'T' || s[10] == ' ')
    then
      var d := Date(ParseNat(s[..4]), ParseNat(s[5..7]), ParseNat(s[8..10]));
      if ValidDate(d) then Some(d) else None
    else None
  }

  /** The ISO text "YYYY-MM-DD" of a date. */
  function FormatDate(d: CalendarDate): (s: string)
    ensures |s| == 10
  {
    Pad4(d.year) + "-" + Pad2(d.month) + "-" + Pad2(d.day)
  }

  /** Formatting then parsing gives the date back: the text form loses nothing. */
  lemma ParseFormatDate(d: CalendarDate)
    ensures ParseDate(FormatDate(d)) == Some(d)
  {
    var s := FormatDate(d);
    assert s[..4] == Pad4(d.year);
    assert s[5..7] == Pad2(d.month);
    assert s[8..10] == Pad2(d.day);
    ParsePad4(d.year);
    ParsePad2(d.month);
    ParsePad2(d.day);
  }

  predicate DateLeq(a: Date, b: Date) {
    a.year < b.year || (a.year == b.year && (a.month < b.month || (a.month == b.month && a.day <= b.day)))
  }

  function DaysBeforeMonth(y: int, m: int): int
    requires 1 <= m <= 12
  {
    if m == 1 then 0 else DaysBeforeMonth(y, m - 1) + DaysInMonth(y, m - 1)
  }

  /** Days since 0001-01-01 in the proleptic Gregorian calendar (Python's date.toordinal() - 1). */
  function DayNumber(d: CalendarDate): int {
    var y := d.year - 1;
    365 * y + y / 4 - y / 100 + y / 400 + DaysBeforeMonth(d.year, d.month) + d.day - 1
  }

  /** What a column holds, as the query layer reads it; `Null` is SQL NULL / Python None. */
  datatype Value = Null | Num(x: real) | Day(date: CalendarDate) | Str(s: string)

  function TextValue(o: Option<string>): Value {
    match o
    case None => Null
    case Some(s) => Str(s)
  }

  function NumValue(o: Option<real>): Value {
    match o
    case None => Null
    case Some(x) => Num(x)
  }

  function DateValue(o: Option<CalendarDate>): Value {
    match o
    case None => Null
    case Some(d) => Day(d)
  }

  /** The inverse readings of a column value; `None` when the value has the wrong kind. */
  function AsText(v: Value): Option<Option<string>> {
    match v
    case Null => Some(None)
    case Str(s) => Some(Some(s))
    case _ => None
  }

  function AsNum(v: Value): Option<Option<real>> {
    match v
    case Null => Some(None)
    case Num(x) => Some(Some(x))
    case _ => None
  }

  function AsDate(v: Value): Option<Option<CalendarDate>> {
    match v
    case Null => Some(None)
    case Day(d) => Some(Some(d))
    case _ => None
  }

  // ---------------------------------------------------------------- rows

  /** A row of table `rockets`; Integer columns (cost, mass) are held as real. */
  datatype Rocket = Rocket(
    id: string,
    name: Option<string>,
    successRatePct: Option<real>,
    costPerLaunch: Option<real>,
    heightMeters: Option<real>,
    diameterMeters: Option<real>,
    massKg: Option<real>,
    thrustSeaLevelKN: Option<real>,
    thrustVacuumKN: Option<real>,
    firstFlight: Option<CalendarDate>)

  /** A row of table `launches`; `rocketId` references `rockets.id`. */
  datatype Launch = Launch(
    id: string,
    name: Option<string>,
    dateUtc: Option<CalendarDate>,
    success: Option<string>,
    rocketId: Option<string>,
    flightNumber: Option<real>)

  /** A row of table `starlink`; `launchId` references `launches.id`. */
  datatype Starlink = Starlink(
    id: string,
    objectName: Option<string>,
    launchDate: Option<CalendarDate>,
    decayDate: Option<CalendarDate>,
    inclination: Option<real>,
    apoapsis: Option<real>,
    periapsis: Option<real>,
    launchId: Option<string>)

  /** The SQL types of the columns: `String`, `Integer`, `Float` and `Date`. */
  datatype ColumnType = TextColumn | IntegerColumn | FloatColumn | DateColumn

  const RocketColumnTypes: map<string, ColumnType> := map[
    "id" := TextColumn, "name" := TextColumn, "success_rate_pct" := FloatColumn,
    "cost_per_launch" := IntegerColumn, "height_meters" := FloatColumn,
    "diameter_meters" := FloatColumn, "mass_kg" := IntegerColumn,
    "thrust_sea_level_kN" := FloatColumn, "thrust_vacuum_kN" := FloatColumn,
    "first_flight" := DateColumn]

  const LaunchColumnTypes: map<string, ColumnType> := map[
    "id" := TextColumn, "name" := TextColumn, "date_utc" := DateColumn,
    "success" := TextColumn, "rocket_id" := TextColumn, "flight_number" := IntegerColumn]

  const StarlinkColumnTypes: map<string, ColumnType> := map[
    "id" := TextColumn, "object_name" := TextColumn, "launch_date" := DateColumn,
    "decay_date" := DateColumn, "inclination" := FloatColumn, "apoapsis" := FloatColumn,
    "periapsis" := FloatColumn, "launch_id" := TextColumn]

  const RocketColumns: set<string> := RocketColumnTypes.Keys
  const LaunchColumns: set<string> := LaunchColumnTypes.Keys
  const StarlinkColumns: set<string> := StarlinkColumnTypes.Keys

  /** `Rockets.to_dict`: one entry per column, keyed by the column's name. */
  function RocketToDict(r: Rocket): (d: map<string, Value>)
    ensures d.Keys == RocketColumns
  {
    map[
      "id" := Str(r.id),
      "name" := TextValue(r.name),
      "success_rate_pct" := NumValue(r.successRatePct),
      "cost_per_launch" := NumValue(r.costPerLaunch),
      "height_meters" := NumValue(r.heightMeters),
      "diameter_meters" := NumValue(r.diameterMeters),
      "mass_kg" := NumValue(r.massKg),
      "thrust_sea_level_kN" := NumValue(r.thrustSeaLevelKN),
      "thrust_vacuum_kN" := NumValue(r.thrustVacuumKN),
      "first_flight" := DateValue(r.firstFlight)]
  }

  /** `Launches.to_dict`: the six columns; the `rocket` and `starlinks` relationships are not included. */
  function LaunchToDict(l: Launch): (d: map<string, Value>)
    ensures d.Keys == LaunchColumns
  {
    map[
      "id" := Str(l.id),
      "name" := TextValue(l.name),
      "date_utc" := DateValue(l.dateUtc),
      "success" := TextValue(l.success),
      "rocket_id" := TextValue(l.rocketId),
      "flight_number" := NumValue(l.flightNumber)]
  }

  /** `Starlink.to_dict`: the eight columns, `launch_id` among them. */
  function StarlinkToDict(s: Starlink): (d: map<string, Value>)
    ensures d.Keys == StarlinkColumns
  {
    map[
      "id" := Str(s.id),
      "object_name" := TextValue(s.objectName),
      "launch_date" := DateValue(s.launchDate),
      "decay_date" := DateValue(s.decayDate),
      "inclination" := NumValue(s.inclination),
      "apoapsis" := NumValue(s.apoapsis),
      "periapsis" := NumValue(s.periapsis),
      "launch_id" := TextValue(s.launchId)]
  }

  /** Reads a rocket back from its dictionary; the partner that shows `to_dict` loses nothing. */
  function RocketFromDict(d: map<string, Value>): Option<Rocket> {
    if RocketColumns <= d.Keys && d["id"].Str?
       && AsText(d["name"]).Some? && AsNum(d["success_rate_pct"]).Some?
       && AsNum(d["cost_per_launch"]).Some? && AsNum(d["height_meters"]).Some?
       && AsNum(d["diameter_meters"]).Some? && AsNum(d["mass_kg"]).Some?
       && AsNum(d["thrust_sea_level_kN"]).Some? && AsNum(d["thrust_vacuum_kN"]).Some?
       && AsDate(d["first_flight"]).Some?
    then Some(Rocket(
      d["id"].s, AsText(d["name"]).value, AsNum(d["success_rate_pct"]).value,
      AsNum(d["cost_per_launch"]).value, AsNum(d["height_meters"]).value,
      AsNum(d["diameter_meters"]).value, AsNum(d["mass_kg"]).value,
      AsNum(d["thrust_sea_level_kN"]).value, AsNum(d["thrust_vacuum_kN"]).value,
      AsDate(d["first_flight"]).value))
    else None
  }

  function LaunchFromDict(d: map<string, Value>): Option<Launch> {
    if LaunchColumns <= d.Keys && d["id"].Str?
       && AsText(d["name"]).Some? && AsDate(d["date_utc"]).Some?
       && AsText(d["success"]).Some? && AsText(d["rocket_id"]).Some?
       && AsNum(d["flight_number"]).Some?
    then Some(Launch(
      d["id"].s, AsText(d["name"]).value, AsDate(d["date_utc"]).value,
      AsText(d["success"]).value, AsText(d["rocket_id"]).value, AsNum(d["flight_number"]).value))
    else None
  }

  function StarlinkFromDict(d: map<string, Value>): Option<Starlink> {
    if StarlinkColumns <= d.Keys && d["id"].Str?
       && AsText(d["object_name"]).Some? && AsDate(d["launch_date"]).Some?
       && AsDate(d["decay_date"]).Some? && AsNum(d["inclination"]).Some?
       && AsNum(d["apoapsis"]).Some? && AsNum(d["periapsis"]).Some?
       && AsText(d["launch_id"]).Some?
    then Some(Starlink(
      d["id"].s, AsText(d["object_name"]).value, AsDate(d["launch_date"]).value,
      AsDate(d["decay_date"]).value, AsNum(d["inclination"]).value,
      AsNum(d["apoapsis"]).value, AsNum(d["periapsis"]).value, AsText(d["launch_id"]).value))
    else None
  }

  lemma RocketDictRoundTrip(r: Rocket)
    ensures RocketFromDict(RocketToDict(r)) == Some(r)
  {
  }

  lemma LaunchDictRoundTrip(l: Launch)
    ensures LaunchFromDict(LaunchToDict(l)) == Some(l)
  {
  }

  lemma StarlinkDictRoundTrip(s: Starlink)
    ensures StarlinkFromDict(StarlinkToDict(s)) == Some(s)
  {
  }

  // ---------------------------------------------------------------- models

  /**
   * What the query layer needs of an ORM model class: the name of its table;
   * the names `getattr` resolves on the class, split into columns (with their
   * SQL types), relationships, and other class attributes holding a plain
   * Python value (the method `to_dict` and the string `__tablename__`); and
   * each row's column values.
   */
  datatype Model<!T> = Model(
    table: string,
    columns: map<string, ColumnType>,
    relationships: set<string>,
    attributes: set<string>,
    project: T -> map<string, Value>)

  const ClassAttributes: set<string> := {"to_dict", "__tablename__"}

  const Rockets: Model<Rocket> := Model("rockets", RocketColumnTypes, {"launches"}, ClassAttributes, RocketToDict)
  const Launches: Model<Launch> :=
    Model("launches", LaunchColumnTypes, {"rocket", "starlinks"}, ClassAttributes, LaunchToDict)
  const Starlinks: Model<Starlink> := Model("starlink", StarlinkColumnTypes, {"launch"}, ClassAttributes, StarlinkToDict)

  /** The names `getattr(model, name, None)` finds: anything else gives None. */
  predicate IsAttribute<T>(m: Model<T>, name: string) {
    name in m.columns || name in m.relationships || name in m.attributes
  }

  /** The value a row holds in a column; `Null` for a name that is not one of its columns. */
  function Field<T>(m: Model<T>, row: T, column: string): Value {
    var d := m.project(row);
    if column in d then d[column] else Null
  }

  /** The `id` column of a rocket is its primary key, as text. */
  lemma RocketIdField(r: Rocket)
    ensures Field(Rockets, r, "id") == Str(r.id)
  {
  }

  // ---------------------------------------------------------------- tables

  /** The three tables, each a map from primary key to row. */
  datatype Tables = Tables(
    rockets: map<string, Rocket>,
    launches: map<string, Launch>,
    starlink: map<string, Starlink>)

  /** Every row is stored under its own primary key: at most one row per id. */
  predicate KeyedById(t: Tables) {
    && (forall k :: k in t.rockets ==> t.rockets[k].id == k)
    && (forall k :: k in t.launches ==> t.launches[k].id == k)
    && (forall k :: k in t.starlink ==> t.starlink[k].id == k)
  }

  /** The foreign keys `launches.rocket_id -> rockets.id` and `starlink.launch_id -> launches.id`. */
  predicate ReferencesResolve(t: Tables) {
    && (forall k :: k in t.launches && t.launches[k].rocketId.Some? ==> t.launches[k].rocketId.value in t.rockets)
    && (forall k :: k in t.starlink && t.starlink[k].launchId.Some? ==> t.starlink[k].launchId.value in t.launches)
  }

  const TableNames: set<string> := {"rockets", "launches", "starlink"}

  /**
   * `create_tables`: when some of the three tables is missing, `create_all`
   * adds the missing ones (it skips tables that exist); otherwise nothing changes.
   */
  function CreateTables(existing: set<string>): (r: set<string>)
    ensures TableNames <= r && existing <= r
    ensures r - existing <= TableNames
    ensures TableNames <= existing ==> r == existing
  {
    if TableNames <= existing then existing else existing + TableNames
  }

  lemma CreateTablesIdempotent(existing: set<string>)
    ensures CreateTables(CreateTables(existing)) == CreateTables(existing)
  {
  }
}
