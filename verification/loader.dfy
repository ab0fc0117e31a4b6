/**
 * `save_to_db`: reads every ".json" snapshot of the live directories, maps
 * each item to a row of its table, merges the rows by primary key into one
 * session, and commits; any error rolls the whole session back.
 */
module Loader {
  import opened Wrappers
  import opened JsonData
  import opened Models
  import opened Snapshots

  /** Why a load was rolled back. */
  datatype LoadError =
    | Missing(key: string)          // `item[key]` raised KeyError or TypeError
    | NotIterable                   // `for item in data` could not iterate the document
    | BadColumn(column: string)     // the database refused the value of a column
    | DanglingReference             // a flushed row's foreign key names no row

  // ---------------------------------------------------------------- items and columns

  /** The nested lookups `item[k1][k2]...`. */
  function At(item: Json, keys: seq<string>): (r: Result<Json, LoadError>)
    ensures r.Success? <==> Path(item, keys).Success?
    ensures r.Success? ==> r.value == Path(item, keys).value
  {
    match Path(item, keys)
    case Success(v) => Success(v)
    case Failure(e) => Failure(Missing(e.key))
  }

  /** A primary key: only a text value is stored; a null key fails at flush. */
  function Key(j: Json): (r: Result<string, LoadError>)
    ensures r.Success? <==> j.JStr?
  {
    if j.JStr? then Success(j.s) else Failure(BadColumn("id"))
  }

  /** A `String` column: text as it is, a boolean as "true" or "false", null as NULL. */
  function Text(column: string, j: Json): (r: Result<Option<string>, LoadError>)
    ensures r.Success? <==> j.JNull? || j.JStr? || j.JBool?
  {
    match j
    case JNull => Success(None)
    case JStr(s) => Success(Some(s))
    case JBool(b) => Success(Some(if b then "true" else "false"))
    case _ => Failure(BadColumn(column))
  }

  /** A `Float` or `Integer` column: a number, or null. */
  function Number(column: string, j: Json): (r: Result<Option<real>, LoadError>)
    ensures r.Success? <==> j.JNull? || j.JNum?
  {
    match j
    case JNull => Success(None)
    case JNum(x) => Success(Some(x))
    case _ => Failure(BadColumn(column))
  }

  /** A `Date` column: an ISO date text, or null. */
  function DateOf(column: string, j: Json): (r: Result<Option<CalendarDate>, LoadError>)
    ensures r.Success? <==> j.JNull? || (j.JStr? && ParseDate(j.s).Some?)
  {
    match j
    case JNull => Success(None)
    case JStr(s) => if ParseDate(s).Some? then Success(Some(ParseDate(s).value)) else Failure(BadColumn(column))
    case _ => Failure(BadColumn(column))
  }

  // ---------------------------------------------------------------- rows

  /** The lookups of a rocket item, in the order of the keyword arguments. */
  const RocketPaths: seq<seq<string>> := [
    ["id"], ["name"], ["success_rate_pct"], ["cost_per_launch"], ["height", "meters"],
    ["diameter", "meters"], ["mass", "kg"], ["first_stage", "thrust_sea_level", "kN"],
    ["first_stage", "thrust_vacuum", "kN"], ["first_flight"]]

  const LaunchPaths: seq<seq<string>> := [
    ["id"], ["name"], ["date_utc"], ["success"], ["rocket"], ["flight_number"]]

  const StarlinkPaths: seq<seq<string>> := [
    ["id"], ["spaceTrack", "OBJECT_NAME"], ["spaceTrack", "LAUNCH_DATE"], ["spaceTrack", "DECAY_DATE"],
    ["spaceTrack", "INCLINATION"], ["spaceTrack", "APOAPSIS"], ["spaceTrack", "PERIAPSIS"], ["launch"]]

  /** `Rockets(id=item['id'], ...)`, then the values the database stores. */
  function ParseRocket(item: Json): Result<Rocket, LoadError> {
    var id :- At(item, RocketPaths[0]);
    var name :- At(item, RocketPaths[1]);
    var rate :- At(item, RocketPaths[2]);
    var cost :- At(item, RocketPaths[3]);
    var height :- At(item, RocketPaths[4]);
    var diameter :- At(item, RocketPaths[5]);
    var mass :- At(item, RocketPaths[6]);
    var thrustSea :- At(item, RocketPaths[7]);
    var thrustVac :- At(item, RocketPaths[8]);
    var first :- At(item, RocketPaths[9]);
    var idV :- Key(id);
    var nameV :- Text("name", name);
    var rateV :- Number("success_rate_pct", rate);
    var costV :- Number("cost_per_launch", cost);
    var heightV :- Number("height_meters", height);
    var diameterV :- Number("diameter_meters", diameter);
    var massV :- Number("mass_kg", mass);
    var thrustSeaV :- Number("thrust_sea_level_kN", thrustSea);
    var thrustVacV :- Number("thrust_vacuum_kN", thrustVac);
    var firstV :- DateOf("first_flight", first);
    Success(Rocket(idV, nameV, rateV, costV, heightV, diameterV, massV, thrustSeaV, thrustVacV, firstV))
  }

  /** `Launches(id=item['id'], ..., rocket_id=item['rocket'], ...)`. */
  function ParseLaunch(item: Json): Result<Launch, LoadError> {
    var id :- At(item, LaunchPaths[0]);
    var name :- At(item, LaunchPaths[1]);
    var date :- At(item, LaunchPaths[2]);
    var success :- At(item, LaunchPaths[3]);
    var rocket :- At(item, LaunchPaths[4]);
    var flight :- At(item, LaunchPaths[5]);
    var idV :- Key(id);
    var nameV :- Text("name", name);
    var dateV :- DateOf("date_utc", date);
    var successV :- Text("success", success);
    var rocketV :- Text("rocket_id", rocket);
    var flightV :- Number("flight_number", flight);
    Success(Launch(idV, nameV, dateV, successV, rocketV, flightV))
  }

  /** `Starlink(id=item['id'], object_name=item['spaceTrack']['OBJECT_NAME'], ..., launch_id=item['launch'])`. */
  function ParseStarlink(item: Json): Result<Starlink, LoadError> {
    var id :- At(item, StarlinkPaths[0]);
    var objectName :- At(item, StarlinkPaths[1]);
    var launchDate :- At(item, StarlinkPaths[2]);
    var decayDate :- At(item, StarlinkPaths[3]);
    var inclination :- At(item, StarlinkPaths[4]);
    var apoapsis :- At(item, StarlinkPaths[5]);
    var periapsis :- At(item, StarlinkPaths[6]);
    var launch :- At(item, StarlinkPaths[7]);
    var idV :- Key(id);
    var objectNameV :- Text("object_name", objectName);
    var launchDateV :- DateOf("launch_date", launchDate);
    var decayDateV :- DateOf("decay_date", decayDate);
    var inclinationV :- Number("inclination", inclination);
    var apoapsisV :- Number("apoapsis", apoapsis);
    var periapsisV :- Number("periapsis", periapsis);
    var launchV :- Text("launch_id", launch);
    Success(Starlink(idV, objectNameV, launchDateV, decayDateV, inclinationV, apoapsisV, periapsisV, launchV))
  }

  /**
   * A rocket item whose lookups all succeed is accepted exactly when every
   * value converts, and then each column holds the value converted from its
   * own key: `height_meters` from `height.meters`, `thrust_sea_level_kN` from
   * `first_stage.thrust_sea_level.kN`, and so on.
   */
  lemma ParseRocketFields(item: Json)
    requires forall k :: 0 <= k < |RocketPaths| ==> At(item, RocketPaths[k]).Success?
    ensures var v := (k: nat) requires k < |RocketPaths| && At(item, RocketPaths[k]).Success? => At(item, RocketPaths[k]).value;
            var id, name, rate, cost := Key(v(0)), Text("name", v(1)), Number("success_rate_pct", v(2)), Number("cost_per_launch", v(3));
            var height, diameter, mass := Number("height_meters", v(4)), Number("diameter_meters", v(5)), Number("mass_kg", v(6));
            var sea, vac, first := Number("thrust_sea_level_kN", v(7)), Number("thrust_vacuum_kN", v(8)), DateOf("first_flight", v(9));
            && (ParseRocket(item).Success? <==>
                  && id.Success? && name.Success? && rate.Success? && cost.Success? && height.Success?
                  && diameter.Success? && mass.Success? && sea.Success? && vac.Success? && first.Success?)
            && (ParseRocket(item).Success? ==>
                  ParseRocket(item).value == Rocket(id.value, name.value, rate.value, cost.value, height.value,
                                                    diameter.value, mass.value, sea.value, vac.value, first.value))
  {
  }

  /**
   * A launch item whose lookups all succeed is accepted exactly when every
   * value converts, and then each column holds the value converted from its
   * own key; `rocket_id` comes from the key `rocket`.
   */
  lemma ParseLaunchFields(item: Json)
    requires forall k :: 0 <= k < |LaunchPaths| ==> At(item, LaunchPaths[k]).Success?
    ensures var v := (k: nat) requires k < |LaunchPaths| && At(item, LaunchPaths[k]).Success? => At(item, LaunchPaths[k]).value;
            var id, name, date := Key(v(0)), Text("name", v(1)), DateOf("date_utc", v(2));
            var success, rocket, flight := Text("success", v(3)), Text("rocket_id", v(4)), Number("flight_number", v(5));
            && (ParseLaunch(item).Success? <==>
                  id.Success? && name.Success? && date.Success? && success.Success? && rocket.Success? && flight.Success?)
            && (ParseLaunch(item).Success? ==>
                  ParseLaunch(item).value == Launch(id.value, name.value, date.value, success.value, rocket.value, flight.value))
  {
  }

  /**
   * A Starlink item whose lookups all succeed is accepted exactly when every
   * value converts, and then each column holds the value converted from its
   * own key: the orbit and the dates from `spaceTrack`, `launch_id` from `launch`.
   */
  lemma ParseStarlinkFields(item: Json)
    requires forall k :: 0 <= k < |StarlinkPaths| ==> At(item, StarlinkPaths[k]).Success?
    ensures var v := (k: nat) requires k < |StarlinkPaths| && At(item, StarlinkPaths[k]).Success? => At(item, StarlinkPaths[k]).value;
            var id, name, launched := Key(v(0)), Text("object_name", v(1)), DateOf("launch_date", v(2));
            var decayed, inclination := DateOf("decay_date", v(3)), Number("inclination", v(4));
            var apoapsis, periapsis, launch := Number("apoapsis", v(5)), Number("periapsis", v(6)), Text("launch_id", v(7));
            && (ParseStarlink(item).Success? <==>
                  && id.Success? && name.Success? && launched.Success? && decayed.Success?
                  && inclination.Success? && apoapsis.Success? && periapsis.Success? && launch.Success?)
            && (ParseStarlink(item).Success? ==>
                  ParseStarlink(item).value == Starlink(id.value, name.value, launched.value, decayed.value,
                                                        inclination.value, apoapsis.value, periapsis.value, launch.value))
  {
  }

  /** Every lookup of a rocket item must succeed: a missing key anywhere rejects the item. */
  lemma RocketNeedsEveryPath(item: Json, i: nat)
    requires i < |RocketPaths| && Path(item, RocketPaths[i]).Failure?
    ensures ParseRocket(item).Failure?
  {
  }

  lemma LaunchNeedsEveryPath(item: Json, i: nat)
    requires i < |LaunchPaths| && Path(item, LaunchPaths[i]).Failure?
    ensures ParseLaunch(item).Failure?
  {
  }

  lemma StarlinkNeedsEveryPath(item: Json, i: nat)
    requires i < |StarlinkPaths| && Path(item, StarlinkPaths[i]).Failure?
    ensures ParseStarlink(item).Failure?
  {
  }

  /**
   * `for item in data`: the elements of a list; an empty object or text
   * yields nothing; a non-empty object or text yields keys or characters,
   * on which `item['id']` raises; anything else is not iterable.
   */
  function Items(content: Json): (r: Result<seq<Json>, LoadError>)
    ensures r.Success? <==> content.JArr? || content == JObj(map[]) || content == JStr("")
    ensures content.JArr? ==> r == Success(content.items)
    ensures r.Success? && !content.JArr? ==> r.value == []
  {
    match content
    case JArr(items) => Success(items)
    case JObj(fields) => if fields == map[] then Success([]) else Failure(Missing("id"))
    case JStr(s) => if s == "" then Success([]) else Failure(Missing("id"))
    case _ => Failure(NotIterable)
  }

  // ---------------------------------------------------------------- merging into the session

  /** `session.merge(row)` of each item in turn: the row replaces any pending row with its key. */
  function MergeItems<T>(parse: Json -> Result<T, LoadError>, id: T -> string,
                         pending: map<string, T>, items: seq<Json>): Result<map<string, T>, LoadError>
    decreases |items|
  {
    if items == [] then Success(pending)
    else
      var before :- MergeItems(parse, id, pending, items[..|items| - 1]);
      var row :- parse(items[|items| - 1]);
      Success(before[id(row) := row])
  }

  /** One snapshot file: `json.load`, then each of its items. */
  function MergeFile<T>(parse: Json -> Result<T, LoadError>, id: T -> string,
                        pending: map<string, T>, content: Json): Result<map<string, T>, LoadError>
  {
    var items :- Items(content);
    MergeItems(parse, id, pending, items)
  }

  /** The ".json" files among `names`, in listing order. */
  function MergeNames<T>(parse: Json -> Result<T, LoadError>, id: T -> string,
                         pending: map<string, T>, d: Dir, names: seq<string>): Result<map<string, T>, LoadError>
    requires forall n :: n in names ==> n in d.files
    decreases |names|
  {
    if names == [] then Success(pending)
    else
      var before :- MergeNames(parse, id, pending, d, names[..|names| - 1]);
      var last := names[|names| - 1];
      if IsJson(last) then MergeFile(parse, id, before, d.files[last].content) else Success(before)
  }

  /** One table's directory; a missing directory is skipped. */
  function MergeDir<T>(parse: Json -> Result<T, LoadError>, id: T -> string,
                       pending: map<string, T>, data: map<string, Dir>, key: string): Result<map<string, T>, LoadError>
    requires key in data ==> ValidDir(data[key])
  {
    if key in data then MergeNames(parse, id, pending, data[key], data[key].names) else Success(pending)
  }

  function RocketKey(r: Rocket): string { r.id }
  function LaunchKey(l: Launch): string { l.id }
  function StarlinkKey(s: Starlink): string { s.id }

  // ---------------------------------------------------------------- foreign keys

  /** A nullable foreign key resolves when it is NULL or names one of the keys. */
  predicate Resolves(ref: Option<string>, keys: set<string>) {
    ref.None? || ref.value in keys
  }

  /**
   * A launch item as the database sees it.  Each `session.merge` first
   * flushes the row merged before it (autoflush), and the commit flushes the
   * last one, so every launch row merged is written, even one that a later
   * item overwrites; PostgreSQL checks its non-deferrable `rocket_id` key
   * then.  Every rocket is merged, and flushed, before the first launch, so
   * the rockets it can name are those of the merged rockets table.  The
   * failure is reported here for the item itself, where the session reports
   * it one merge later; whether the load commits is the same.
   */
  function LaunchIn(rockets: map<string, Rocket>, item: Json): (r: Result<Launch, LoadError>)
    ensures r.Success? <==> ParseLaunch(item).Success? && Resolves(ParseLaunch(item).value.rocketId, rockets.Keys)
    ensures r.Success? ==> r.value == ParseLaunch(item).value
    ensures ParseLaunch(item).Success? && r.Failure? ==> r.error == DanglingReference
  {
    var launch :- ParseLaunch(item);
    if Resolves(launch.rocketId, rockets.Keys) then Success(launch) else Failure(DanglingReference)
  }

  /** A Starlink item as the database sees it: its `launch_id` must name a merged launch. */
  function StarlinkIn(launches: map<string, Launch>, item: Json): (r: Result<Starlink, LoadError>)
    ensures r.Success? <==> ParseStarlink(item).Success? && Resolves(ParseStarlink(item).value.launchId, launches.Keys)
    ensures r.Success? ==> r.value == ParseStarlink(item).value
    ensures ParseStarlink(item).Success? && r.Failure? ==> r.error == DanglingReference
  {
    var satellite :- ParseStarlink(item);
    if Resolves(satellite.launchId, launches.Keys) then Success(satellite) else Failure(DanglingReference)
  }

  function LaunchParser(rockets: map<string, Rocket>): Json -> Result<Launch, LoadError> {
    item => LaunchIn(rockets, item)
  }

  function StarlinkParser(launches: map<string, Launch>): Json -> Result<Starlink, LoadError> {
    item => StarlinkIn(launches, item)
  }

  /**
   * The tables after `save_to_db`: rockets, then launches checked against
   * the merged rockets, then Starlink satellites checked against the merged
   * launches.
   */
  function LoadSpec(t: Tables, data: map<string, Dir>): Result<Tables, LoadError>
    requires ValidDirs(data)
  {
    var rockets :- MergeDir(ParseRocket, RocketKey, t.rockets, data, "rockets");
    var launches :- MergeDir(LaunchParser(rockets), LaunchKey, t.launches, data, "launches");
    var starlink :- MergeDir(StarlinkParser(launches), StarlinkKey, t.starlink, data, "starlink");
    Success(Tables(rockets, launches, starlink))
  }

  // ---------------------------------------------------------------- properties of the merge

  /**
   * Merging is an update of what is pending: whether it succeeds does not
   * depend on the pending rows, and on success it overwrites them with the
   * rows the items alone give.
   */
  lemma {:induction false} MergeItemsIsUpdate<T>(parse: Json -> Result<T, LoadError>, id: T -> string,
                                                 pending: map<string, T>, items: seq<Json>)
    ensures MergeItems(parse, id, pending, items).Success? <==> MergeItems(parse, id, map[], items).Success?
    ensures MergeItems(parse, id, pending, items).Success? ==>
              MergeItems(parse, id, pending, items).value == pending + MergeItems(parse, id, map[], items).value
    decreases |items|
  {
    if items != [] {
      MergeItemsIsUpdate(parse, id, pending, items[..|items| - 1]);
    }
  }

  lemma {:induction false} MergeNamesIsUpdate<T>(parse: Json -> Result<T, LoadError>, id: T -> string,
                                                 pending: map<string, T>, d: Dir, names: seq<string>)
    requires forall n :: n in names ==> n in d.files
    ensures MergeNames(parse, id, pending, d, names).Success? <==> MergeNames(parse, id, map[], d, names).Success?
    ensures MergeNames(parse, id, pending, d, names).Success? ==>
              MergeNames(parse, id, pending, d, names).value == pending + MergeNames(parse, id, map[], d, names).value
    decreases |names|
  {
    if names != [] {
      var init, last := names[..|names| - 1], names[|names| - 1];
      MergeNamesIsUpdate(parse, id, pending, d, init);
      var mine, base := MergeNames(parse, id, pending, d, init), MergeNames(parse, id, map[], d, init);
      if mine.Success? && IsJson(last) {
        var content := d.files[last].content;
        if Items(content).Success? {
          var items := Items(content).value;
          MergeItemsIsUpdate(parse, id, mine.value, items);
          MergeItemsIsUpdate(parse, id, base.value, items);
          MergeItemsIsUpdate(parse, id, map[], items);
        }
      }
    }
  }

  lemma MergeDirIsUpdate<T>(parse: Json -> Result<T, LoadError>, id: T -> string,
                            pending: map<string, T>, data: map<string, Dir>, key: string)
    requires key in data ==> ValidDir(data[key])
    ensures MergeDir(parse, id, pending, data, key).Success? <==> MergeDir(parse, id, map[], data, key).Success?
    ensures MergeDir(parse, id, pending, data, key).Success? ==>
              MergeDir(parse, id, pending, data, key).value == pending + MergeDir(parse, id, map[], data, key).value
  {
    if key in data {
      MergeNamesIsUpdate(parse, id, pending, data[key], data[key].names);
    }
  }

  /** Merging the same directory a second time changes nothing. */
  lemma MergeDirTwice<T>(parse: Json -> Result<T, LoadError>, id: T -> string,
                         pending: map<string, T>, data: map<string, Dir>, key: string)
    requires key in data ==> ValidDir(data[key])
    requires MergeDir(parse, id, pending, data, key).Success?
    ensures var once := MergeDir(parse, id, pending, data, key).value;
            MergeDir(parse, id, once, data, key) == Success(once)
  {
    var once := MergeDir(parse, id, pending, data, key).value;
    MergeDirIsUpdate(parse, id, pending, data, key);
    MergeDirIsUpdate(parse, id, once, data, key);
    var delta := MergeDir(parse, id, map[], data, key).value;
    assert once + delta == once;
  }

  /**
   * Among the items, the last one with a given key is the row pending under
   * that key afterwards (MergeItemsIsUpdate states the whole pending map).
   */
  lemma {:induction false} LastItemWins<T>(parse: Json -> Result<T, LoadError>, id: T -> string,
                                           pending: map<string, T>, items: seq<Json>, i: nat)
    requires MergeItems(parse, id, pending, items).Success?
    requires i < |items| && parse(items[i]).Success?
    requires forall j :: i < j < |items| && parse(items[j]).Success? ==> id(parse(items[j]).value) != id(parse(items[i]).value)
    ensures var after := MergeItems(parse, id, pending, items).value;
            var row := parse(items[i]).value;
            id(row) in after && after[id(row)] == row
    decreases |items|
  {
    if i < |items| - 1 {
      var init := items[..|items| - 1];
      assert init[i] == items[i];
      forall j | i < j < |init| && parse(init[j]).Success? ensures id(parse(init[j]).value) != id(parse(init[i]).value) {
        assert init[j] == items[j];
      }
      LastItemWins(parse, id, pending, init, i);
    }
  }

  /** Every row is stored under its own key. */
  ghost predicate KeyedBy<T>(m: map<string, T>, id: T -> string) {
    forall k :: k in m ==> id(m[k]) == k
  }

  /** Every row pending after a merge is stored under its own key, if every row pending before was. */
  lemma {:induction false} MergeItemsKeyed<T>(parse: Json -> Result<T, LoadError>, id: T -> string,
                                              pending: map<string, T>, items: seq<Json>)
    requires KeyedBy(pending, id)
    requires MergeItems(parse, id, pending, items).Success?
    ensures var after := MergeItems(parse, id, pending, items).value;
            KeyedBy(after, id)
    decreases |items|
  {
    if items != [] {
      MergeItemsKeyed(parse, id, pending, items[..|items| - 1]);
    }
  }

  /** One item that cannot be read rolls back the whole merge. */
  lemma {:induction false} BadItemFailsMerge<T>(parse: Json -> Result<T, LoadError>, id: T -> string,
                                                pending: map<string, T>, items: seq<Json>, i: nat)
    requires i < |items| && parse(items[i]).Failure?
    ensures MergeItems(parse, id, pending, items).Failure?
    decreases |items|
  {
    if i < |items| - 1 {
      assert items[..|items| - 1][i] == items[i];
      BadItemFailsMerge(parse, id, pending, items[..|items| - 1], i);
    }
  }

  /** One ".json" file that cannot be merged rolls back the whole directory. */
  lemma {:induction false} BadFileFailsDir<T>(parse: Json -> Result<T, LoadError>, id: T -> string,
                                              pending: map<string, T>, d: Dir, names: seq<string>, i: nat)
    requires forall n :: n in names ==> n in d.files
    requires i < |names| && IsJson(names[i])
    requires MergeFile(parse, id, map[], d.files[names[i]].content).Failure?
    ensures MergeNames(parse, id, pending, d, names).Failure?
    decreases |names|
  {
    var init := names[..|names| - 1];
    if i < |names| - 1 {
      assert init[i] == names[i];
      BadFileFailsDir(parse, id, pending, d, init, i);
    } else {
      var before := MergeNames(parse, id, pending, d, init);
      if before.Success? {
        var content := d.files[names[i]].content;
        if Items(content).Success? {
          MergeItemsIsUpdate(parse, id, before.value, Items(content).value);
        }
      }
    }
  }

  // ---------------------------------------------------------------- properties of the load

  /** Loading the same live directories a second time changes nothing. */
  lemma LoadIdempotent(t: Tables, data: map<string, Dir>)
    requires ValidDirs(data) && LoadSpec(t, data).Success?
    ensures LoadSpec(LoadSpec(t, data).value, data) == LoadSpec(t, data)
  {
    var next := LoadSpec(t, data).value;
    MergeDirTwice(ParseRocket, RocketKey, t.rockets, data, "rockets");
    MergeDirTwice(LaunchParser(next.rockets), LaunchKey, t.launches, data, "launches");
    MergeDirTwice(StarlinkParser(next.launches), StarlinkKey, t.starlink, data, "starlink");
  }

  /**
   * A successful load keeps every row under its own primary key, and, from
   * tables whose foreign keys resolve (the database enforces them), leaves
   * no dangling foreign key.
   */
  lemma LoadKeepsKeys(t: Tables, data: map<string, Dir>)
    requires ValidDirs(data) && KeyedById(t) && ReferencesResolve(t) && LoadSpec(t, data).Success?
    ensures KeyedById(LoadSpec(t, data).value) && ReferencesResolve(LoadSpec(t, data).value)
  {
    var next := LoadSpec(t, data).value;
    MergeDirKeyed(ParseRocket, RocketKey, t.rockets, data, "rockets");
    MergeDirIsUpdate(ParseRocket, RocketKey, t.rockets, data, "rockets");
    MergeDirKeyed(LaunchParser(next.rockets), LaunchKey, t.launches, data, "launches");
    MergeDirIsUpdate(LaunchParser(next.rockets), LaunchKey, t.launches, data, "launches");
    MergeDirKeyed(StarlinkParser(next.launches), StarlinkKey, t.starlink, data, "starlink");
    MergeDirKeeps(LaunchParser(next.rockets), LaunchKey, t.launches, data, "launches",
                  (l: Launch) => Resolves(l.rocketId, next.rockets.Keys));
    MergeDirKeeps(StarlinkParser(next.launches), StarlinkKey, t.starlink, data, "starlink",
                  (s: Starlink) => Resolves(s.launchId, next.launches.Keys));
  }

  /** Every row of the table has the property. */
  ghost predicate AllRows<T>(m: map<string, T>, P: T -> bool) {
    forall k :: k in m ==> P(m[k])
  }

  /**
   * A property every pending row and every row the parse accepts has holds
   * of every row after the merge.
   */
  lemma {:induction false} MergeItemsKeeps<T>(parse: Json -> Result<T, LoadError>, id: T -> string,
                                              pending: map<string, T>, items: seq<Json>, P: T -> bool)
    requires AllRows(pending, P)
    requires forall j :: parse(j).Success? ==> P(parse(j).value)
    ensures MergeItems(parse, id, pending, items).Success? ==>
              AllRows(MergeItems(parse, id, pending, items).value, P)
    decreases |items|
  {
    if items != [] {
      MergeItemsKeeps(parse, id, pending, items[..|items| - 1], P);
    }
  }

  lemma {:induction false} MergeNamesKeeps<T>(parse: Json -> Result<T, LoadError>, id: T -> string,
                                              pending: map<string, T>, d: Dir, names: seq<string>, P: T -> bool)
    requires forall n :: n in names ==> n in d.files
    requires AllRows(pending, P)
    requires forall j :: parse(j).Success? ==> P(parse(j).value)
    ensures MergeNames(parse, id, pending, d, names).Success? ==>
              AllRows(MergeNames(parse, id, pending, d, names).value, P)
    decreases |names|
  {
    if names != [] {
      var init, last := names[..|names| - 1], names[|names| - 1];
      MergeNamesKeeps(parse, id, pending, d, init, P);
      var before := MergeNames(parse, id, pending, d, init);
      if before.Success? && IsJson(last) {
        var content := d.files[last].content;
        if Items(content).Success? {
          MergeItemsKeeps(parse, id, before.value, Items(content).value, P);
        }
      }
    }
  }

  lemma MergeDirKeeps<T>(parse: Json -> Result<T, LoadError>, id: T -> string,
                         pending: map<string, T>, data: map<string, Dir>, key: string, P: T -> bool)
    requires key in data ==> ValidDir(data[key])
    requires AllRows(pending, P)
    requires forall j :: parse(j).Success? ==> P(parse(j).value)
    ensures MergeDir(parse, id, pending, data, key).Success? ==>
              AllRows(MergeDir(parse, id, pending, data, key).value, P)
  {
    if key in data {
      MergeNamesKeeps(parse, id, pending, data[key], data[key].names, P);
    }
  }

  lemma MergeDirKeyed<T>(parse: Json -> Result<T, LoadError>, id: T -> string,
                         pending: map<string, T>, data: map<string, Dir>, key: string)
    requires key in data ==> ValidDir(data[key])
    requires KeyedBy(pending, id)
    ensures MergeDir(parse, id, pending, data, key).Success? ==>
              var after := MergeDir(parse, id, pending, data, key).value;
              KeyedBy(after, id)
  {
    if key in data {
      MergeNamesKeyed(parse, id, pending, data[key], data[key].names);
    }
  }

  lemma {:induction false} MergeNamesKeyed<T>(parse: Json -> Result<T, LoadError>, id: T -> string,
                                              pending: map<string, T>, d: Dir, names: seq<string>)
    requires forall n :: n in names ==> n in d.files
    requires KeyedBy(pending, id)
    ensures MergeNames(parse, id, pending, d, names).Success? ==>
              var after := MergeNames(parse, id, pending, d, names).value;
              KeyedBy(after, id)
    decreases |names|
  {
    if names != [] {
      var init, last := names[..|names| - 1], names[|names| - 1];
      MergeNamesKeyed(parse, id, pending, d, init);
      var before := MergeNames(parse, id, pending, d, init);
      if before.Success? && IsJson(last) {
        var content := d.files[last].content;
        if Items(content).Success? && MergeItems(parse, id, before.value, Items(content).value).Success? {
          MergeItemsKeyed(parse, id, before.value, Items(content).value);
        }
      }
    }
  }

  /**
   * A rocket item that lacks one of the keys the loader reads (`height`,
   * `first_stage`, ...) in any ".json" file of the rockets directory rolls
   * back the whole load: no table changes.
   */
  lemma MissingRocketKeyAbortsLoad(t: Tables, data: map<string, Dir>, name: string, i: nat, p: nat)
    requires ValidDirs(data) && "rockets" in data
    requires name in data["rockets"].files && IsJson(name)
    requires Items(data["rockets"].files[name].content).Success?
    requires i < |Items(data["rockets"].files[name].content).value|
    requires p < |RocketPaths|
    requires Path(Items(data["rockets"].files[name].content).value[i], RocketPaths[p]).Failure?
    ensures LoadSpec(t, data).Failure?
  {
    var d := data["rockets"];
    var items := Items(d.files[name].content).value;
    RocketNeedsEveryPath(items[i], p);
    BadItemFailsMerge(ParseRocket, RocketKey, map[], items, i);
    var k :| 0 <= k < |d.names| && d.names[k] == name;
    BadFileFailsDir(ParseRocket, RocketKey, t.rockets, d, d.names, k);
  }

  /**
   * A launch item that names a rocket the merged rockets table lacks rolls
   * back the whole load, even when a later item gives the same launch a
   * rocket that exists: the autoflush writes the first row before the second
   * replaces it.
   */
  lemma DanglingLaunchAbortsLoad(t: Tables, data: map<string, Dir>, name: string, i: nat)
    requires ValidDirs(data) && "launches" in data
    requires MergeDir(ParseRocket, RocketKey, t.rockets, data, "rockets").Success?
    requires name in data["launches"].files && IsJson(name)
    requires Items(data["launches"].files[name].content).Success?
    requires i < |Items(data["launches"].files[name].content).value|
    requires var item := Items(data["launches"].files[name].content).value[i];
             && ParseLaunch(item).Success?
             && !Resolves(ParseLaunch(item).value.rocketId, MergeDir(ParseRocket, RocketKey, t.rockets, data, "rockets").value.Keys)
    ensures LoadSpec(t, data).Failure?
  {
    var d := data["launches"];
    var items := Items(d.files[name].content).value;
    var parse := LaunchParser(MergeDir(ParseRocket, RocketKey, t.rockets, data, "rockets").value);
    assert parse(items[i]).Failure?;
    BadItemFailsMerge(parse, LaunchKey, map[], items, i);
    var k :| 0 <= k < |d.names| && d.names[k] == name;
    BadFileFailsDir(parse, LaunchKey, t.launches, d, d.names, k);
  }

  /** Likewise, a Starlink item that names a launch the merged launches table lacks rolls back the load. */
  lemma DanglingStarlinkAbortsLoad(t: Tables, data: map<string, Dir>, name: string, i: nat)
    requires ValidDirs(data) && "starlink" in data
    requires LoadSpec(Tables(t.rockets, t.launches, map[]), data - {"starlink"}).Success?
    requires name in data["starlink"].files && IsJson(name)
    requires Items(data["starlink"].files[name].content).Success?
    requires i < |Items(data["starlink"].files[name].content).value|
    requires var item := Items(data["starlink"].files[name].content).value[i];
             && ParseStarlink(item).Success?
             && !Resolves(ParseStarlink(item).value.launchId,
                          LoadSpec(Tables(t.rockets, t.launches, map[]), data - {"starlink"}).value.launches.Keys)
    ensures LoadSpec(t, data).Failure?
  {
    var d := data["starlink"];
    var items := Items(d.files[name].content).value;
    var rest := data - {"starlink"};
    assert MergeDir(ParseRocket, RocketKey, t.rockets, data, "rockets")
        == MergeDir(ParseRocket, RocketKey, t.rockets, rest, "rockets");
    var rockets := MergeDir(ParseRocket, RocketKey, t.rockets, data, "rockets").value;
    assert MergeDir(LaunchParser(rockets), LaunchKey, t.launches, data, "launches")
        == MergeDir(LaunchParser(rockets), LaunchKey, t.launches, rest, "launches");
    var launches := MergeDir(LaunchParser(rockets), LaunchKey, t.launches, data, "launches").value;
    var parse := StarlinkParser(launches);
    assert parse(items[i]).Failure?;
    BadItemFailsMerge(parse, StarlinkKey, map[], items, i);
    var k :| 0 <= k < |d.names| && d.names[k] == name;
    BadFileFailsDir(parse, StarlinkKey, t.starlink, d, d.names, k);
  }

  // ---------------------------------------------------------------- the session, imperatively

  /** The loop over one file's items, with an early exit on the first item that does not parse. */
  method MergeRows<T>(parse: Json -> Result<T, LoadError>, id: T -> string,
                      pending: map<string, T>, items: seq<Json>) returns (r: Result<map<string, T>, LoadError>)
    ensures r == MergeItems(parse, id, pending, items)
  {
    var session := pending;
    var j := 0;
    while j < |items|
      invariant 0 <= j <= |items|
      invariant MergeItems(parse, id, pending, items[..j]) == Success(session)
    {
      assert items[..j + 1][..j] == items[..j];
      var row := parse(items[j]);
      if row.Failure? {
        MergeItemsPrefixFails(parse, id, pending, items, j + 1);
        return row.PropagateFailure();
      }
      session := session[id(row.value) := row.value];
      j := j + 1;
    }
    assert items[..j] == items;
    r := Success(session);
  }

  /** The loop over one directory's listing, with an early exit on the first file that fails. */
  method MergeFiles<T>(parse: Json -> Result<T, LoadError>, id: T -> string,
                       pending: map<string, T>, d: Dir) returns (r: Result<map<string, T>, LoadError>)
    requires ValidDir(d)
    ensures r == MergeNames(parse, id, pending, d, d.names)
  {
    var session := pending;
    var i := 0;
    while i < |d.names|
      invariant 0 <= i <= |d.names|
      invariant MergeNames(parse, id, pending, d, d.names[..i]) == Success(session)
    {
      var name := d.names[i];
      assert d.names[..i + 1][..i] == d.names[..i];
      if IsJson(name) {
        var items := Items(d.files[name].content);
        if items.Failure? {
          MergeNamesPrefixFails(parse, id, pending, d, d.names, i + 1);
          return items.PropagateFailure();
        }
        var merged := MergeRows(parse, id, session, items.value);
        if merged.Failure? {
          MergeNamesPrefixFails(parse, id, pending, d, d.names, i + 1);
          return merged;
        }
        session := merged.value;
      }
      i := i + 1;
    }
    assert d.names[..i] == d.names;
    r := Success(session);
  }

  /** Once a prefix of the items fails, the whole merge fails with the same error. */
  lemma {:induction false} MergeItemsPrefixFails<T>(parse: Json -> Result<T, LoadError>, id: T -> string,
                                                    pending: map<string, T>, items: seq<Json>, i: nat)
    requires i <= |items| && MergeItems(parse, id, pending, items[..i]).Failure?
    ensures MergeItems(parse, id, pending, items) == MergeItems(parse, id, pending, items[..i])
    decreases |items| - i
  {
    if i < |items| {
      assert items[..i + 1][..i] == items[..i];
      MergeItemsPrefixFails(parse, id, pending, items, i + 1);
    } else {
      assert items[..i] == items;
    }
  }

  lemma {:induction false} MergeNamesPrefixFails<T>(parse: Json -> Result<T, LoadError>, id: T -> string,
                                                    pending: map<string, T>, d: Dir, names: seq<string>, i: nat)
    requires forall n :: n in names ==> n in d.files
    requires i <= |names| && MergeNames(parse, id, pending, d, names[..i]).Failure?
    ensures MergeNames(parse, id, pending, d, names) == MergeNames(parse, id, pending, d, names[..i])
    decreases |names| - i
  {
    if i < |names| {
      assert names[..i + 1][..i] == names[..i];
      MergeNamesPrefixFails(parse, id, pending, d, names, i + 1);
    } else {
      assert names[..i] == names;
    }
  }

  /** The database: the three tables, each a map from primary key to row. */
  class Database {
    var rockets: map<string, Rocket>
    var launches: map<string, Launch>
    var starlink: map<string, Starlink>

    function Contents(): Tables
      reads this
    {
      Tables(rockets, launches, starlink)
    }

    constructor ()
      ensures Contents() == Tables(map[], map[], map[])
    {
      rockets, launches, starlink := map[], map[], map[];
    }

    /**
     * `save_to_db`: on success every table holds what LoadSpec gives; on any
     * error the session is rolled back and no table changes.
     */
    method SaveToDb(data: map<string, Dir>) returns (ok: bool)
      requires ValidDirs(data)
      modifies this
      ensures ok <==> LoadSpec(old(Contents()), data).Success?
      ensures Contents() == if ok then LoadSpec(old(Contents()), data).value else old(Contents())
    {
      var r := Success(rockets);
      if "rockets" in data {
        r := MergeFiles(ParseRocket, RocketKey, rockets, data["rockets"]);
      }
      if r.Failure? {
        return false;
      }
      var l := Success(launches);
      if "launches" in data {
        l := MergeFiles(LaunchParser(r.value), LaunchKey, launches, data["launches"]);
      }
      if l.Failure? {
        return false;
      }
      var s := Success(starlink);
      if "starlink" in data {
        s := MergeFiles(StarlinkParser(l.value), StarlinkKey, starlink, data["starlink"]);
      }
      if s.Failure? {
        return false;
      }
      rockets, launches, starlink := r.value, l.value, s.value;
      ok := true;
    }
  }
}
