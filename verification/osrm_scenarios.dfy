/** Worked OSRM replies: concrete route objects run through the meaning of
    parseServerResponse. The polyline decoder, the coordinate comparison, the
    angle difference and the turn text stay parameters; each scenario states
    only what it needs of them. */
module OsrmScenarios {
  import opened Wrappers
  import opened Json
  import opened TurnTypes
  import opened External
  import JavaLang
  import OsrmTurns
  import OsrmLocator
  import opened OsrmParser

  /** Three points near the Brandenburg Gate. */
  const P0: LatLon := LatLon(52.51, 13.38)
  const P1: LatLon := LatLon(52.51704, 13.38886)
  const P2: LatLon := LatLon(52.52, 13.39)

  /** P0, P1 and P2 in the Encoded Polyline Algorithm Format at precision 5. */
  const GEOMETRY: string := "ozn_I_htpA_k@kv@oQcF"

  /** A location that lies off the route. */
  const OFF: LatLon := LatLon(52.0, 13.0)

  /** Whether the collaborator takes route point p to equal location q. */
  predicate Same(env: Env, p: LatLon, q: LatLon) {
    env.areLatLonEqual(p, q.lat, q.lon)
  }

  /** What the scenarios need of the collaborators, as the polyline decoder and the
      coordinate comparison behave on these points: GEOMETRY decodes to P0, P1,
      P2; each of them equals its own location and not the other two, which lie
      hundreds of metres away; none equals OFF. */
  predicate ScenarioEnv(env: Env) {
    env.decodePolyline(GEOMETRY, PRECISION_5) == [P0, P1, P2] &&
    Same(env, P0, P0) && Same(env, P1, P1) && Same(env, P2, P2) &&
    !Same(env, P0, P1) && !Same(env, P0, P2) && !Same(env, P1, P0) &&
    !Same(env, P1, P2) && !Same(env, P2, P0) && !Same(env, P2, P1) &&
    !Same(env, P0, OFF) && !Same(env, P1, OFF) && !Same(env, P2, OFF)
  }

  /** A number written as an integer literal. */
  function Int(i: int): Json {
    Num(i as real, true)
  }

  /** A number written with a fraction. */
  function Decimal(x: real): Json {
    Num(x, false)
  }

  /** A maneuver location, [longitude, latitude]. */
  function Location(p: LatLon): Json {
    Arr([Decimal(p.lon), Decimal(p.lat)])
  }

  /** A route object with one leg holding the given steps. */
  function RouteObject(geometry: string, steps: seq<Json>): JsonObject {
    map["geometry" := Str(geometry), "legs" := Arr([Obj(map["steps" := Arr(steps)])])]
  }

  /** A step object: its maneuver, distance, duration and street name. */
  function StepObject(maneuver: JsonObject, distance: real, duration: real, name: string): JsonObject {
    map["maneuver" := Obj(maneuver), "distance" := Decimal(distance), "duration" := Decimal(duration),
        "name" := Str(name)]
  }

  /** The leg loop over a single leg that has steps is the step loop over them. */
  lemma SingleLegLoop(steps: seq<Json>, route: seq<LatLon>, leftSide: bool, env: Env)
    ensures RunLoop(LegBody([Obj(map["steps" := Arr(steps)])], route, leftSide, env), 1, Scan(0, [])) ==
            RunLoop(StepBody(steps, route, leftSide, env), |steps|, Scan(0, []))
  {
    var legs := [Obj(map["steps" := Arr(steps)])];
    assert ArrayGetObject(legs, 0) == Ok(map["steps" := Arr(steps)]);
    assert LegOutcome(legs, 0, route, Scan(0, []), leftSide, env) ==
           RunLoop(StepBody(steps, route, leftSide, env), |steps|, Scan(0, []));
    LoopAdvances(LegBody(legs, route, leftSide, env), 0, Scan(0, []), Scan(0, []));
  }

  /** A reply with a decodable geometry and one leg is exactly what the step loop
      over that leg's steps makes of an empty state. */
  lemma SingleLegReply(geometry: string, steps: seq<Json>, leftSide: bool, env: Env)
    requires env.decodePolyline(geometry, PRECISION_5) != []
    ensures var route := env.decodePolyline(geometry, PRECISION_5);
            ParseResponse(RouteObject(geometry, steps), leftSide, env) ==
              match RunLoop(StepBody(steps, route, leftSide, env), |steps|, Scan(0, []))
              case Err(e) => Failed(e)
              case Ok(s) => Response(route, s.directions)
  {
    var legs := [Obj(map["steps" := Arr(steps)])];
    SingleLegLoop(steps, env.decodePolyline(geometry, PRECISION_5), leftSide, env);
    assert GetString(RouteObject(geometry, steps), "geometry") == Ok(geometry);
    assert GetArray(RouteObject(geometry, steps), "legs") == Ok(legs);
  }

  /** The maneuver of the first scenario: a right turn at P1 from bearing 10 to 100. */
  function RightTurn(): JsonObject {
    map["type" := Str("turn"), "modifier" := Str("right"),
        "bearing_before" := Int(10), "bearing_after" := Int(100),
        "location" := Location(P1)]
  }

  /** The step of the first scenario. */
  function RightTurnStep(): JsonObject {
    StepObject(RightTurn(), 120.4, 15.0, "Unter den Linden")
  }

  /** The right-turn step reads as a "turn" at P1. */
  lemma RightTurnReads()
    ensures ReadManeuver([Obj(RightTurnStep())], 0) ==
            Ok(Maneuver(RightTurnStep(), RightTurn(), "turn", P1.lat, P1.lon))
  {
    assert GetArray(RightTurn(), "location") == Ok(Location(P1).items);
  }

  /** The right-turn maneuver is a right turn by the angle from bearing 10 to 100. */
  lemma RightTurnClassifies(leftSide: bool, env: Env)
    ensures OsrmTurns.ParseTurnType(RightTurn(), leftSide, env) ==
            Ok(TurnType(ValueOf(TR, leftSide), env.degreesDiff(100, 10)))
  {
    OsrmTurns.KnownModifierGivesItsTurn(RightTurn(), leftSide, env, TR);
    assert IntValue(Int(10)) == 10 && IntValue(Int(100)) == 100;
  }

  /** The right-turn step builds a right turn by the angle between the bearings,
      120 m long, on its street. */
  lemma RightTurnBuilds(offset: nat, leftSide: bool, env: Env)
    ensures var d := BuildDirection(Maneuver(RightTurnStep(), RightTurn(), "turn", P1.lat, P1.lon),
                                    offset, leftSide, env);
            d.Ok? && d.value.routePointOffset == offset &&
            d.value.turnType == TurnType(ValueOf(TR, leftSide), env.degreesDiff(100, 10)) &&
            d.value.distance == 120 && d.value.streetName == "Unter den Linden"
  {
    RightTurnClassifies(leftSide, env);
    JavaLang.RoundToIntIsNearest(120.4);
    assert GetDouble(RightTurnStep(), "distance") == Ok(120.4);
  }

  /** The right-turn step alone, from the start of the route, gives the direction
      it builds at offset 1. */
  lemma RightTurnAlone(env: Env, leftSide: bool, d: Direction)
    requires ScenarioEnv(env)
    requires BuildDirection(Maneuver(RightTurnStep(), RightTurn(), "turn", P1.lat, P1.lon), 1, leftSide, env) == Ok(d)
    ensures ParseResponse(RouteObject(GEOMETRY, [Obj(RightTurnStep())]), leftSide, env) ==
            Response([P0, P1, P2], [d])
  {
    var route := env.decodePolyline(GEOMETRY, PRECISION_5);
    var steps := [Obj(RightTurnStep())];
    var m := Maneuver(RightTurnStep(), RightTurn(), "turn", P1.lat, P1.lon);
    RightTurnReads();
    assert OsrmLocator.LocationIndex(route, 1, P1.lat, P1.lon, env.areLatLonEqual) == Some(1);
    StepMatched(steps, 0, route, Scan(0, []), leftSide, env, m, 1);
    assert Scan(0, []).directions + [d] == [d];
    LoopAdvances(StepBody(steps, route, leftSide, env), 0, Scan(0, []), Scan(0, []));
    SingleLegReply(GEOMETRY, steps, leftSide, env);
  }

  /** The route P0, P1, P2 with one "turn"/"right" step at P1 of 120.4 m: the reply
      has one direction, at offset 1, a right turn by the angle between the
      bearings, 120 m long, on its street. */
  lemma RightTurnScenario(env: Env, leftSide: bool)
    requires ScenarioEnv(env)
    ensures var r := ParseResponse(RouteObject(GEOMETRY, [Obj(RightTurnStep())]), leftSide, env);
            r.Response? && r.route == [P0, P1, P2] && |r.directions| == 1 &&
            r.directions[0].routePointOffset == 1 &&
            r.directions[0].turnType == TurnType(ValueOf(TR, leftSide), env.degreesDiff(100, 10)) &&
            r.directions[0].distance == 120 &&
            r.directions[0].streetName == "Unter den Linden"
  {
    RightTurnBuilds(1, leftSide, env);
    var m := Maneuver(RightTurnStep(), RightTurn(), "turn", P1.lat, P1.lon);
    RightTurnAlone(env, leftSide, BuildDirection(m, 1, leftSide, env).value);
  }

  /** An "arrive" maneuver at P2, the end of the route. */
  function Arrive(): JsonObject {
    map["type" := Str("arrive"), "bearing_before" := Int(90), "bearing_after" := Int(0),
        "location" := Location(P2)]
  }

  /** An "arrive" step, found at the last route point, gets an empty description
      whatever its street name, which is still stored as given. */
  lemma ArriveScenario(name: string, env: Env, leftSide: bool)
    requires ScenarioEnv(env)
    ensures var r := ParseResponse(RouteObject(GEOMETRY, [Obj(StepObject(Arrive(), 0.0, 0.0, name))]), leftSide, env);
            r.Response? && |r.directions| == 1 &&
            r.directions[0].routePointOffset == 2 &&
            r.directions[0].description == "" &&
            r.directions[0].streetName == name
  {
    var route := env.decodePolyline(GEOMETRY, PRECISION_5);
    var instruction := StepObject(Arrive(), 0.0, 0.0, name);
    var steps := [Obj(instruction)];
    var m := Maneuver(instruction, Arrive(), "arrive", P2.lat, P2.lon);
    assert GetArray(Arrive(), "location") == Ok(Location(P2).items);
    assert ReadManeuver(steps, 0) == Ok(m);
    assert OsrmLocator.LocationIndex(route, 2, P2.lat, P2.lon, env.areLatLonEqual) == Some(2);
    assert OsrmLocator.LocationIndex(route, 0, P2.lat, P2.lon, env.areLatLonEqual) == Some(2);
    OsrmTurns.ParseTurnTypeFails(Arrive(), leftSide, env);
    var d := BuildDirection(m, 2, leftSide, env);
    assert d.Ok?;
    BuildDirectionFields(m, 2, leftSide, env, d.value);
    StepMatched(steps, 0, route, Scan(0, []), leftSide, env, m, 2);
    assert Scan(0, []).directions + [d.value] == [d.value];
    LoopAdvances(StepBody(steps, route, leftSide, env), 0, Scan(0, []), Scan(0, []));
    SingleLegReply(GEOMETRY, steps, leftSide, env);
  }

  /** A roundabout maneuver at P1 with exit 2 and no modifier. */
  function RoundaboutExit(): JsonObject {
    map["type" := Str("roundabout"), "exit" := Int(2),
        "bearing_before" := Int(180), "bearing_after" := Int(270),
        "location" := Location(P1)]
  }

  /** parseTurnType on a roundabout maneuver with exit 2 and no modifier gives the
      exit turn for exit 2. */
  lemma RoundaboutExitScenario(leftSide: bool, env: Env)
    ensures OsrmTurns.ParseTurnType(RoundaboutExit(), leftSide, env) ==
            Ok(TurnType(ExitTurn(2, leftSide), env.degreesDiff(270, 180)))
  {
    OsrmTurns.RoundaboutExitWins(RoundaboutExit(), leftSide, env);
    assert IntValue(Int(2)) == 2 && IntValue(Int(180)) == 180 && IntValue(Int(270)) == 270;
  }

  /** The empty geometry decodes to no points, so the reply gives no response even
      though it has no legs at all: legs is never read. */
  lemma EmptyGeometryScenario(leftSide: bool, env: Env)
    requires env.decodePolyline("", PRECISION_5) == []
    ensures ParseResponse(map["geometry" := Str("")], leftSide, env) == NoResponse
  {
    assert GetString(map["geometry" := Str("")], "geometry") == Ok("");
  }

  /** A step at OFF, without distance, duration or name. */
  function LostStep(): JsonObject {
    map["maneuver" := Obj(map["type" := Str("turn"), "location" := Location(OFF)])]
  }

  /** A step whose location matches no route point is dropped, even though it
      has no distance, duration or name, and the search cursor stays at the start
      of the route: the right turn after it is found at P1, and the reply is the
      one the right turn alone gives. */
  lemma LostStepScenario(env: Env, leftSide: bool)
    requires ScenarioEnv(env)
    ensures var r := ParseResponse(RouteObject(GEOMETRY, [Obj(LostStep()), Obj(RightTurnStep())]), leftSide, env);
            r.Response? && |r.directions| == 1 &&
            r.directions[0].routePointOffset == 1 &&
            r == ParseResponse(RouteObject(GEOMETRY, [Obj(RightTurnStep())]), leftSide, env)
  {
    var route := env.decodePolyline(GEOMETRY, PRECISION_5);
    var steps := [Obj(LostStep()), Obj(RightTurnStep())];
    var body := StepBody(steps, route, leftSide, env);
    var lost := Maneuver(LostStep(), LostStep()["maneuver"].fields, "turn", OFF.lat, OFF.lon);
    assert GetArray(LostStep()["maneuver"].fields, "location") == Ok(Location(OFF).items);
    assert ReadManeuver(steps, 0) == Ok(lost);
    OsrmLocator.LocationIndexSpec(route, 0, OFF.lat, OFF.lon, env.areLatLonEqual);
    StepSkipped(steps, 0, route, Scan(0, []), leftSide, env, lost);
    LoopAdvances(body, 0, Scan(0, []), Scan(0, []));
    var m := Maneuver(RightTurnStep(), RightTurn(), "turn", P1.lat, P1.lon);
    RightTurnReads();
    assert ReadManeuver(steps, 1) == ReadManeuver([Obj(RightTurnStep())], 0);
    assert OsrmLocator.LocationIndex(route, 1, P1.lat, P1.lon, env.areLatLonEqual) == Some(1);
    RightTurnBuilds(1, leftSide, env);
    StepMatched(steps, 1, route, Scan(0, []), leftSide, env, m, 1);
    var d := BuildDirection(m, 1, leftSide, env).value;
    assert Scan(0, []).directions + [d] == [d];
    LoopAdvances(body, 1, Scan(0, []), Scan(0, []));
    SingleLegReply(GEOMETRY, steps, leftSide, env);
    RightTurnAlone(env, leftSide, d);
  }

}
