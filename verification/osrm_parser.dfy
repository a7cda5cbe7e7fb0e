/** OsrmParser.parseServerResponse: turns one OSRM route object into the route
    points and the list of turn-by-turn directions. The functions below give the
    meaning of the response loop; ParseServerResponse is the loop itself and is
    proved to compute exactly that meaning. */
module OsrmParser {
  import opened Wrappers
  import opened Json
  import opened TurnTypes
  import opened External
  import JavaLang
  import OsrmTurns
  import OsrmLocator

  /** RouteDirectionInfo as the parser fills it (its average speed is not modelled). */
  datatype Direction = Direction(
    turnType: TurnType,
    distance: int,
    streetName: string,
    description: string,
    routePointOffset: nat)

  /** What parseServerResponse gives back: a response, null, or a thrown JSONException. */
  datatype Outcome =
    | Response(route: seq<LatLon>, directions: seq<Direction>)
    | NoResponse
    | Failed(error: JsonException)

  /** The state the step loop carries: startSearchingId and the directions list. */
  datatype Scan = Scan(cursor: nat, directions: seq<Direction>)

  /** The fields of a step read before its location is looked up. */
  datatype Maneuver = Maneuver(
    instruction: JsonObject,
    maneuver: JsonObject,
    maneuverType: string,
    lat: real,
    lon: real)

  /** getRootArrayKey: the key of the routes array in an OSRM reply. */
  function RootArrayKey(): (k: string)
    ensures k == "routes"
  {
    "routes"
  }

  /** getErrorMessageKey: the key of the failure message in an OSRM reply. */
  function ErrorMessageKey(): (k: string)
    ensures k == "message"
  {
    "message"
  }

  /** Reads a step's maneuver, its type and its [longitude, latitude] location;
      fails when any of them is missing or of the wrong kind. */
  function ReadManeuver(steps: JsonArray, j: nat): JResult<Maneuver>
  {
    var instruction :- ArrayGetObject(steps, j);
    var maneuver :- GetObject(instruction, "maneuver");
    var maneuverType :- GetString(maneuver, "type");
    var location :- GetArray(maneuver, "location");
    var lon :- ArrayGetDouble(location, 0);
    var lat :- ArrayGetDouble(location, 1);
    Ok(Maneuver(instruction, maneuver, maneuverType, lat, lon))
  }

  /** What ReadManeuver reads: the step object, its maneuver object, the type and
      the location, whose first element is the longitude and second the latitude. */
  lemma ReadManeuverReads(steps: JsonArray, j: nat, m: Maneuver)
    requires ReadManeuver(steps, j) == Ok(m)
    ensures j < |steps| && steps[j] == Obj(m.instruction)
    ensures "maneuver" in m.instruction && m.instruction["maneuver"] == Obj(m.maneuver)
    ensures "type" in m.maneuver && m.maneuver["type"] == Str(m.maneuverType)
    ensures "location" in m.maneuver && m.maneuver["location"].Arr?
    ensures var location := m.maneuver["location"].items;
            |location| >= 2 && location[0].Num? && location[0].n == m.lon &&
            location[1].Num? && location[1].n == m.lat
  {
  }

  /** ReadManeuver fails exactly when the step is not an object, or its maneuver,
      the maneuver's type or its two-number location is missing or of the wrong kind. */
  lemma ReadManeuverFails(steps: JsonArray, j: nat)
    ensures ReadManeuver(steps, j).Err? <==>
              !(j < |steps| && steps[j].Obj?) ||
              GetObject(steps[j].fields, "maneuver").Err? ||
              GetString(steps[j].fields["maneuver"].fields, "type").Err? ||
              GetArray(steps[j].fields["maneuver"].fields, "location").Err? ||
              |steps[j].fields["maneuver"].fields["location"].items| < 2 ||
              !steps[j].fields["maneuver"].fields["location"].items[0].Num? ||
              !steps[j].fields["maneuver"].fields["location"].items[1].Num?
  {
  }

  /** The description: empty for an "arrive" maneuver, otherwise the turn text and
      the street name joined by a space and trimmed. */
  function Describe(maneuverType: string, turnType: TurnType, streetName: string, env: Env): string {
    var description := if maneuverType != "arrive" then env.turnText(turnType) + " " + streetName else "";
    JavaLang.Trim(description)
  }

  /** An "arrive" step has an empty description. Any description neither starts
      nor ends with a character up to U+0020. When the turn text is non-empty and
      its first and last characters are above U+0020, the description is the turn
      text alone for an empty street name, and "<turn text> <street name>" for a
      non-empty street name whose last character is above U+0020. */
  lemma DescribeSpec(maneuverType: string, turnType: TurnType, streetName: string, env: Env)
    ensures var r := Describe(maneuverType, turnType, streetName, env);
            var text := env.turnText(turnType);
            (maneuverType == "arrive" ==> r == "") &&
            (r == [] || (!JavaLang.IsTrimmable(r[0]) && !JavaLang.IsTrimmable(r[|r| - 1]))) &&
            (maneuverType != "arrive" && text != [] && !JavaLang.IsTrimmable(text[0]) &&
             !JavaLang.IsTrimmable(text[|text| - 1]) ==>
               (streetName == [] ==> r == text) &&
               (streetName != [] && !JavaLang.IsTrimmable(streetName[|streetName| - 1]) ==>
                  r == text + " " + streetName))
  {
    var text := env.turnText(turnType);
    var joined := if maneuverType != "arrive" then text + " " + streetName else "";
    JavaLang.TrimSpec(joined);
    if maneuverType != "arrive" && text != [] && !JavaLang.IsTrimmable(text[0]) &&
       !JavaLang.IsTrimmable(text[|text| - 1]) {
      assert JavaLang.TrimStart(joined) == joined;
      if streetName == [] {
        assert joined[..|joined| - 1] == text;
        assert JavaLang.TrimEnd(text) == text;
      }
    }
  }

  /** The direction for a step whose location was found at routePointOffset;
      fails when distance, duration, a turn field or name is missing. */
  function BuildDirection(m: Maneuver, routePointOffset: nat, leftSide: bool, env: Env): JResult<Direction>
  {
    var distance :- GetDouble(m.instruction, "distance");
    var duration :- GetDouble(m.instruction, "duration");
    var turnType :- OsrmTurns.ParseTurnType(m.maneuver, leftSide, env);
    var streetName :- GetString(m.instruction, "name");
    Ok(Direction(turnType, JavaLang.RoundToInt(distance), streetName,
                 Describe(m.maneuverType, turnType, streetName, env), routePointOffset))
  }

  /** Building a direction fails exactly when distance or duration is not a number,
      the turn cannot be parsed, or name is not a string. */
  lemma BuildDirectionFails(m: Maneuver, routePointOffset: nat, leftSide: bool, env: Env)
    ensures BuildDirection(m, routePointOffset, leftSide, env).Err? <==>
              GetDouble(m.instruction, "distance").Err? || GetDouble(m.instruction, "duration").Err? ||
              OsrmTurns.ParseTurnType(m.maneuver, leftSide, env).Err? || GetString(m.instruction, "name").Err?
  {
  }

  /** What a direction holds: the offset it was found at, the street name unchanged,
      the distance rounded to the nearest int, the parsed turn type, and a
      description that is empty for "arrive" and otherwise the trimmed turn text
      and street name. */
  lemma BuildDirectionFields(m: Maneuver, routePointOffset: nat, leftSide: bool, env: Env, d: Direction)
    requires BuildDirection(m, routePointOffset, leftSide, env) == Ok(d)
    ensures d.routePointOffset == routePointOffset
    ensures "name" in m.instruction && m.instruction["name"] == Str(d.streetName)
    ensures "distance" in m.instruction && m.instruction["distance"].Num? &&
            d.distance == JavaLang.RoundToInt(m.instruction["distance"].n)
    ensures OsrmTurns.ParseTurnType(m.maneuver, leftSide, env) == Ok(d.turnType)
    ensures m.maneuverType == "arrive" ==> d.description == ""
    ensures m.maneuverType != "arrive" ==>
              d.description == JavaLang.Trim(env.turnText(d.turnType) + " " + d.streetName)
  {
  }

  /** One pass of the step loop: read the maneuver, look its location up from the
      cursor on, skip the step when it is not found, otherwise move the cursor to
      the match and append the step's direction. */
  function StepOutcome(steps: JsonArray, j: nat, route: seq<LatLon>, s: Scan, leftSide: bool, env: Env)
    : JResult<Scan>
  {
    var m :- ReadManeuver(steps, j);
    match OsrmLocator.LocationIndex(route, s.cursor, m.lat, m.lon, env.areLatLonEqual)
    case None => Ok(s)
    case Some(offset) =>
      var direction :- BuildDirection(m, offset, leftSide, env);
      Ok(Scan(offset, s.directions + [direction]))
  }

  /** A loop body: given the loop index and the state before it, the state after it,
      or the exception it throws. */
  type LoopBody = (nat, Scan) -> JResult<Scan>

  /** The first n passes of a loop from state s; the first exception ends it. */
  function RunLoop(body: LoopBody, n: nat, s: Scan): JResult<Scan> {
    if n == 0 then Ok(s)
    else
      var before :- RunLoop(body, n - 1, s);
      body(n - 1, before)
  }

  /** One more pass of a loop that has run n passes without an exception. */
  lemma LoopAdvances(body: LoopBody, n: nat, s: Scan, current: Scan)
    requires RunLoop(body, n, s) == Ok(current)
    ensures RunLoop(body, n + 1, s) == body(n, current)
  {
  }

  /** The last of n passes of a loop that ends without an exception: the first
      n - 1 passes ended without one too, and the last pass went from their state. */
  lemma LoopLastPass(body: LoopBody, n: nat, s: Scan, t: Scan)
    requires n > 0
    requires RunLoop(body, n, s) == Ok(t)
    ensures RunLoop(body, n - 1, s).Ok?
    ensures body(n - 1, RunLoop(body, n - 1, s).value) == Ok(t)
  {
  }

  /** The body of the step loop over a leg's steps. */
  function StepBody(steps: JsonArray, route: seq<LatLon>, leftSide: bool, env: Env): LoopBody {
    (j: nat, s: Scan) => StepOutcome(steps, j, route, s, leftSide, env)
  }

  /** A pass of the step loop whose location is not found leaves the state unchanged. */
  lemma StepSkipped(steps: JsonArray, j: nat, route: seq<LatLon>, s: Scan, leftSide: bool, env: Env, m: Maneuver)
    requires ReadManeuver(steps, j) == Ok(m)
    requires OsrmLocator.LocationIndex(route, s.cursor, m.lat, m.lon, env.areLatLonEqual).None?
    ensures StepBody(steps, route, leftSide, env)(j, s) == Ok(s)
  {
  }

  /** A pass of the step loop whose location is found at offset moves the cursor
      there and appends the step's direction, or fails as building it does. */
  lemma StepMatched(steps: JsonArray, j: nat, route: seq<LatLon>, s: Scan, leftSide: bool, env: Env,
                    m: Maneuver, offset: nat)
    requires ReadManeuver(steps, j) == Ok(m)
    requires OsrmLocator.LocationIndex(route, s.cursor, m.lat, m.lon, env.areLatLonEqual) == Some(offset)
    ensures var d := BuildDirection(m, offset, leftSide, env);
            StepBody(steps, route, leftSide, env)(j, s) ==
              if d.Ok? then Ok(Scan(offset, s.directions + [d.value])) else Err(d.error)
  {
  }

  /** A pass of the step loop whose maneuver cannot be read fails with that error. */
  lemma StepUnreadable(steps: JsonArray, j: nat, route: seq<LatLon>, s: Scan, leftSide: bool, env: Env)
    requires ReadManeuver(steps, j).Err?
    ensures StepBody(steps, route, leftSide, env)(j, s) == Err(ReadManeuver(steps, j).error)
  {
  }

  /** One pass of the leg loop: a leg without "steps" leaves the state as it is;
      otherwise its steps run in array order. */
  function LegOutcome(legs: JsonArray, i: nat, route: seq<LatLon>, s: Scan, leftSide: bool, env: Env)
    : (r: JResult<Scan>)
    ensures i < |legs| && legs[i].Obj? && !Has(legs[i].fields, "steps") ==> r == Ok(s)
  {
    var leg :- ArrayGetObject(legs, i);
    if !Has(leg, "steps") then Ok(s)
    else
      var steps :- GetArray(leg, "steps");
      RunLoop(StepBody(steps, route, leftSide, env), |steps|, s)
  }

  /** The body of the leg loop. */
  function LegBody(legs: JsonArray, route: seq<LatLon>, leftSide: bool, env: Env): LoopBody {
    (i: nat, s: Scan) => LegOutcome(legs, i, route, s, leftSide, env)
  }

  /** The meaning of parseServerResponse. A missing geometry fails; a geometry
      that decodes to no points gives no response, before legs is even read; a
      missing legs array fails. */
  function ParseResponse(root: JsonObject, leftSide: bool, env: Env): (r: Outcome)
    ensures GetString(root, "geometry").Err? ==> r.Failed?
    ensures (GetString(root, "geometry").Ok? &&
             env.decodePolyline(root["geometry"].s, PRECISION_5) == []) ==> r == NoResponse
    ensures (GetString(root, "geometry").Ok? &&
             env.decodePolyline(root["geometry"].s, PRECISION_5) != [] &&
             GetArray(root, "legs").Err?) ==> r.Failed?
    ensures r.Response? ==>
              GetString(root, "geometry").Ok? &&
              r.route == env.decodePolyline(root["geometry"].s, PRECISION_5) && r.route != []
  {
    match GetString(root, "geometry")
    case Err(e) => Failed(e)
    case Ok(encodedPoints) =>
      var route := env.decodePolyline(encodedPoints, PRECISION_5);
      if route == [] then NoResponse
      else
        match GetArray(root, "legs")
        case Err(e) => Failed(e)
        case Ok(legs) =>
          match RunLoop(LegBody(legs, route, leftSide, env), |legs|, Scan(0, []))
          case Err(e) => Failed(e)
          case Ok(s) => Response(route, s.directions)
  }

  // ---------------------------------------------------------------------------
  // The loop of parseServerResponse.

  /** A thrown exception ends a loop: once the first k passes fail, so do the first n. */
  lemma {:induction false} FailureEndsLoop(body: LoopBody, k: nat, n: nat, s: Scan)
    requires k <= n
    requires RunLoop(body, k, s).Err?
    ensures RunLoop(body, n, s) == RunLoop(body, k, s)
    decreases n
  {
    if k < n {
      FailureEndsLoop(body, k, n - 1, s);
    }
  }

  /** An exception thrown in pass k of a loop whose earlier passes completed is
      what the whole loop ends with. */
  lemma ExceptionEndsLoop(body: LoopBody, k: nat, n: nat, s: Scan, current: Scan)
    requires k < n
    requires RunLoop(body, k, s) == Ok(current)
    requires body(k, current).Err?
    ensures RunLoop(body, n, s) == body(k, current)
  {
    LoopAdvances(body, k, s, current);
    FailureEndsLoop(body, k + 1, n, s);
  }

  /** A step that throws, in a leg the loop reaches, makes the whole reply fail
      with that exception: no partial list of directions is returned. */
  lemma StepExceptionFailsReply(root: JsonObject, leftSide: bool, env: Env, i: nat, j: nat, s: Scan, x: Scan)
    requires "geometry" in root && root["geometry"].Str?
    requires env.decodePolyline(root["geometry"].s, PRECISION_5) != []
    requires "legs" in root && root["legs"].Arr? && i < |root["legs"].items|
    requires root["legs"].items[i].Obj? && "steps" in root["legs"].items[i].fields
    requires root["legs"].items[i].fields["steps"].Arr?
    requires var route := env.decodePolyline(root["geometry"].s, PRECISION_5);
             var steps := root["legs"].items[i].fields["steps"].items;
             j < |steps| &&
             RunLoop(LegBody(root["legs"].items, route, leftSide, env), i, Scan(0, [])) == Ok(s) &&
             RunLoop(StepBody(steps, route, leftSide, env), j, s) == Ok(x) &&
             StepOutcome(steps, j, route, x, leftSide, env).Err?
    ensures ParseResponse(root, leftSide, env) ==
            Failed(StepOutcome(root["legs"].items[i].fields["steps"].items, j,
                               env.decodePolyline(root["geometry"].s, PRECISION_5), x, leftSide, env).error)
  {
    var route := env.decodePolyline(root["geometry"].s, PRECISION_5);
    var legs := root["legs"].items;
    var steps := legs[i].fields["steps"].items;
    ExceptionEndsLoop(StepBody(steps, route, leftSide, env), j, |steps|, s, x);
    assert LegOutcome(legs, i, route, s, leftSide, env) == StepOutcome(steps, j, route, x, leftSide, env);
    ExceptionEndsLoop(LegBody(legs, route, leftSide, env), i, |legs|, Scan(0, []), s);
  }

  /** One pass of the step loop of parseServerResponse: reads the maneuver, scans
      for its location from the cursor, and either skips the step or moves the
      cursor and appends the step's direction. */
  method ParseStep(steps: JsonArray, j: nat, route: seq<LatLon>, leftSide: bool, env: Env,
                   startSearchingId: nat, directions: seq<Direction>)
    returns (result: JResult<Scan>)
    ensures result == StepBody(steps, route, leftSide, env)(j, Scan(startSearchingId, directions))
  {
    var maneuverRead := ReadManeuver(steps, j);
    if maneuverRead.Err? {
      StepUnreadable(steps, j, route, Scan(startSearchingId, directions), leftSide, env);
      return Err(maneuverRead.error);
    }
    var m := maneuverRead.value;
    var routePointOffset := OsrmLocator.GetLocationIndexInList(route, startSearchingId, m.lat, m.lon,
                                                               env.areLatLonEqual);
    if routePointOffset.None? {
      StepSkipped(steps, j, route, Scan(startSearchingId, directions), leftSide, env, m);
      return Ok(Scan(startSearchingId, directions));
    }
    StepMatched(steps, j, route, Scan(startSearchingId, directions), leftSide, env, m, routePointOffset.value);
    var direction := BuildDirection(m, routePointOffset.value, leftSide, env);
    if direction.Err? {
      return Err(direction.error);
    }
    return Ok(Scan(routePointOffset.value, directions + [direction.value]));
  }

  /** The inner loop of parseServerResponse over one leg's steps, carrying the
      search cursor startSearchingId and the directions list. */
  method ParseSteps(steps: JsonArray, route: seq<LatLon>, leftSide: bool, env: Env,
                    startSearchingId0: nat, directions0: seq<Direction>)
    returns (result: JResult<Scan>)
    ensures result == RunLoop(StepBody(steps, route, leftSide, env), |steps|, Scan(startSearchingId0, directions0))
  {
    ghost var body := StepBody(steps, route, leftSide, env);
    var startSearchingId, directions := startSearchingId0, directions0;
    for j := 0 to |steps|
      invariant RunLoop(body, j, Scan(startSearchingId0, directions0)) == Ok(Scan(startSearchingId, directions))
    {
      var stepResult := ParseStep(steps, j, route, leftSide, env, startSearchingId, directions);
      LoopAdvances(body, j, Scan(startSearchingId0, directions0), Scan(startSearchingId, directions));
      if stepResult.Err? {
        FailureEndsLoop(body, j + 1, |steps|, Scan(startSearchingId0, directions0));
        return Err(stepResult.error);
      }
      startSearchingId, directions := stepResult.value.cursor, stepResult.value.directions;
    }
    return Ok(Scan(startSearchingId, directions));
  }

  /** One pass of the leg loop of parseServerResponse: a leg without "steps" is
      skipped; otherwise its steps run from the current cursor and directions. */
  method ParseLeg(legs: JsonArray, i: nat, route: seq<LatLon>, leftSide: bool, env: Env,
                  startSearchingId: nat, directions: seq<Direction>)
    returns (result: JResult<Scan>)
    ensures result == LegBody(legs, route, leftSide, env)(i, Scan(startSearchingId, directions))
  {
    var legRead := ArrayGetObject(legs, i);
    if legRead.Err? {
      return Err(legRead.error);
    }
    var leg := legRead.value;
    if !Has(leg, "steps") {
      return Ok(Scan(startSearchingId, directions));
    }
    var stepsRead := GetArray(leg, "steps");
    if stepsRead.Err? {
      return Err(stepsRead.error);
    }
    result := ParseSteps(stepsRead.value, route, leftSide, env, startSearchingId, directions);
  }

  /** parseServerResponse: the leg loop, with the search cursor startSearchingId
      and the directions list threaded through every leg. */
  method ParseServerResponse(root: JsonObject, leftSide: bool, env: Env) returns (out: Outcome)
    ensures out == ParseResponse(root, leftSide, env)
  {
    var encodedPoints := GetString(root, "geometry");
    if encodedPoints.Err? {
      return Failed(encodedPoints.error);
    }
    var points := env.decodePolyline(encodedPoints.value, PRECISION_5);
    if |points| == 0 {
      return NoResponse;
    }
    var route := points;
    var directions: seq<Direction> := [];
    var startSearchingId: nat := 0;
    var legsRead := GetArray(root, "legs");
    if legsRead.Err? {
      return Failed(legsRead.error);
    }
    var legs := legsRead.value;
    ghost var body := LegBody(legs, route, leftSide, env);
    for i := 0 to |legs|
      invariant RunLoop(body, i, Scan(0, [])) == Ok(Scan(startSearchingId, directions))
    {
      var legResult := ParseLeg(legs, i, route, leftSide, env, startSearchingId, directions);
      LoopAdvances(body, i, Scan(0, []), Scan(startSearchingId, directions));
      if legResult.Err? {
        FailureEndsLoop(body, i + 1, |legs|, Scan(0, []));
        return Failed(legResult.error);
      }
      startSearchingId, directions := legResult.value.cursor, legResult.value.directions;
    }
    return Response(route, directions);
  }
}
