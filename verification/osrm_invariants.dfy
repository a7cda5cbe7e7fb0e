/** What parseServerResponse guarantees about the directions it builds: every
    direction points at a route point that matches its maneuver's location, the
    offsets only move forward along the route, and the search cursor always sits
    on the last offset found. */
module OsrmInvariants {
  import opened Wrappers
  import opened Json
  import opened External
  import OsrmLocator
  import opened OsrmParser

  /** The route point offsets of a directions list never decrease. */
  predicate OffsetsNondecreasing(directions: seq<Direction>) {
    forall a, b :: 0 <= a < b < |directions| ==>
      directions[a].routePointOffset <= directions[b].routePointOffset
  }

  /** A consistent loop state over a route: the cursor is a route index, no
      offset lies beyond it, the offsets never decrease and the last one is the
      cursor itself. */
  predicate ScanValid(route: seq<LatLon>, s: Scan) {
    s.cursor < |route| &&
    (forall k :: 0 <= k < |s.directions| ==> s.directions[k].routePointOffset <= s.cursor) &&
    OffsetsNondecreasing(s.directions) &&
    (s.directions != [] ==> s.directions[|s.directions| - 1].routePointOffset == s.cursor)
  }

  /** t continues s: the cursor has not moved back, the directions of s are kept
      as they were, possibly with more appended, and the cursor has moved only if
      some direction was appended. */
  predicate Extends(s: Scan, t: Scan) {
    s.cursor <= t.cursor &&
    |s.directions| <= |t.directions| &&
    t.directions[..|s.directions|] == s.directions &&
    (|t.directions| == |s.directions| ==> t.cursor == s.cursor)
  }

  /** A property of loop states that every pass not throwing an exception keeps. */
  ghost predicate PassKeeps(body: LoopBody, inv: Scan -> bool) {
    forall j: nat, x: Scan :: inv(x) && body(j, x).Ok? ==> inv(body(j, x).value)
  }

  /** Extending is transitive. */
  lemma ExtendsTrans(s: Scan, mid: Scan, t: Scan)
    requires Extends(s, mid) && Extends(mid, t)
    ensures Extends(s, t)
  {
    assert t.directions[..|s.directions|] == t.directions[..|mid.directions|][..|s.directions|];
  }

  /** A property every pass keeps holds after any number of passes that do not
      throw. */
  lemma {:induction false} LoopKeeps(body: LoopBody, inv: Scan -> bool, n: nat, s: Scan)
    requires PassKeeps(body, inv)
    requires inv(s)
    requires RunLoop(body, n, s).Ok?
    ensures inv(RunLoop(body, n, s).value)
  {
    if n > 0 {
      LoopLastPass(body, n, s, RunLoop(body, n, s).value);
      LoopKeeps(body, inv, n - 1, s);
    }
  }

  /** A pass of the step loop that does not throw either finds no point equal to
      the step's location from the cursor on and leaves the state unchanged, or
      moves the cursor to the first such point and appends exactly the direction
      built for that step at that offset. */
  lemma StepSpec(steps: JsonArray, j: nat, route: seq<LatLon>, s: Scan, leftSide: bool, env: Env, t: Scan)
    requires StepBody(steps, route, leftSide, env)(j, s) == Ok(t)
    ensures ReadManeuver(steps, j).Ok?
    ensures var m := ReadManeuver(steps, j).value;
            (t == s &&
             forall k :: s.cursor <= k < |route| ==> !env.areLatLonEqual(route[k], m.lat, m.lon)) ||
            (s.cursor <= t.cursor < |route| && env.areLatLonEqual(route[t.cursor], m.lat, m.lon) &&
             (forall k :: s.cursor <= k < t.cursor ==> !env.areLatLonEqual(route[k], m.lat, m.lon)) &&
             t.directions == s.directions + [t.directions[|s.directions|]] &&
             BuildDirection(m, t.cursor, leftSide, env) == Ok(t.directions[|s.directions|]))
  {
    if ReadManeuver(steps, j).Err? {
      StepUnreadable(steps, j, route, s, leftSide, env);
      assert false;
    }
    var m := ReadManeuver(steps, j).value;
    OsrmLocator.LocationIndexSpec(route, s.cursor, m.lat, m.lon, env.areLatLonEqual);
    match OsrmLocator.LocationIndex(route, s.cursor, m.lat, m.lon, env.areLatLonEqual)
    case None =>
      StepSkipped(steps, j, route, s, leftSide, env, m);
    case Some(offset) =>
      StepMatched(steps, j, route, s, leftSide, env, m, offset);
  }

  /** A pass of the step loop keeps the state consistent and only extends it. */
  lemma StepKeepsValid(steps: JsonArray, j: nat, route: seq<LatLon>, s: Scan, leftSide: bool, env: Env, t: Scan)
    requires ScanValid(route, s)
    requires StepBody(steps, route, leftSide, env)(j, s) == Ok(t)
    ensures ScanValid(route, t) && Extends(s, t)
  {
    StepSpec(steps, j, route, s, leftSide, env, t);
    if t != s {
      var d := t.directions[|s.directions|];
      BuildDirectionFields(ReadManeuver(steps, j).value, t.cursor, leftSide, env, d);
      assert t.directions == s.directions + [d];
    }
  }

  /** The step loop over a leg keeps the state consistent, never moves the cursor
      back and keeps the directions it started with. */
  lemma StepsKeepValid(steps: JsonArray, route: seq<LatLon>, s: Scan, leftSide: bool, env: Env)
    requires ScanValid(route, s)
    requires RunLoop(StepBody(steps, route, leftSide, env), |steps|, s).Ok?
    ensures var t := RunLoop(StepBody(steps, route, leftSide, env), |steps|, s).value;
            ScanValid(route, t) && Extends(s, t)
  {
    var body := StepBody(steps, route, leftSide, env);
    var inv := (x: Scan) => ScanValid(route, x) && Extends(s, x);
    forall j: nat, x: Scan | inv(x) && body(j, x).Ok?
      ensures inv(body(j, x).value)
    {
      StepKeepsValid(steps, j, route, x, leftSide, env, body(j, x).value);
      ExtendsTrans(s, x, body(j, x).value);
    }
    assert s.directions[..|s.directions|] == s.directions;
    LoopKeeps(body, inv, |steps|, s);
  }

  /** A pass of the leg loop keeps the state consistent and only extends it. */
  lemma LegKeepsValid(legs: JsonArray, i: nat, route: seq<LatLon>, s: Scan, leftSide: bool, env: Env, t: Scan)
    requires ScanValid(route, s)
    requires LegBody(legs, route, leftSide, env)(i, s) == Ok(t)
    ensures ScanValid(route, t) && Extends(s, t)
  {
    var leg := ArrayGetObject(legs, i).value;
    if Has(leg, "steps") {
      var steps := GetArray(leg, "steps").value;
      StepsKeepValid(steps, route, s, leftSide, env);
    }
  }

  /** The leg loop of a reply ends, when it does not throw, in a consistent state
      that extends the empty one it starts from. */
  lemma LegsKeepValid(legs: JsonArray, route: seq<LatLon>, leftSide: bool, env: Env)
    requires route != []
    requires RunLoop(LegBody(legs, route, leftSide, env), |legs|, Scan(0, [])).Ok?
    ensures var t := RunLoop(LegBody(legs, route, leftSide, env), |legs|, Scan(0, [])).value;
            ScanValid(route, t) && Extends(Scan(0, []), t)
  {
    var body := LegBody(legs, route, leftSide, env);
    var inv := (x: Scan) => ScanValid(route, x) && Extends(Scan(0, []), x);
    forall i: nat, x: Scan | inv(x) && body(i, x).Ok?
      ensures inv(body(i, x).value)
    {
      LegKeepsValid(legs, i, route, x, leftSide, env, body(i, x).value);
      ExtendsTrans(Scan(0, []), x, body(i, x).value);
    }
    LoopKeeps(body, inv, |legs|, Scan(0, []));
  }

  /** In every response, each direction's route point offset is an index into the
      decoded route, and the offsets follow the order of the route. */
  lemma ResponseDirectionsFollowRoute(root: JsonObject, leftSide: bool, env: Env)
    requires ParseResponse(root, leftSide, env).Response?
    ensures var r := ParseResponse(root, leftSide, env);
            (forall k :: 0 <= k < |r.directions| ==> r.directions[k].routePointOffset < |r.route|) &&
            OffsetsNondecreasing(r.directions)
  {
    var route := env.decodePolyline(GetString(root, "geometry").value, PRECISION_5);
    LegsKeepValid(GetArray(root, "legs").value, route, leftSide, env);
  }

  /** After the leg loop, startSearchingId is the offset of the last direction
      emitted, or still 0 when none was. */
  lemma FinalCursor(legs: JsonArray, route: seq<LatLon>, leftSide: bool, env: Env)
    requires route != []
    requires RunLoop(LegBody(legs, route, leftSide, env), |legs|, Scan(0, [])).Ok?
    ensures var t := RunLoop(LegBody(legs, route, leftSide, env), |legs|, Scan(0, [])).value;
            t.cursor == if t.directions == [] then 0 else t.directions[|t.directions| - 1].routePointOffset
  {
    LegsKeepValid(legs, route, leftSide, env);
  }

  // ---------------------------------------------------------------------------
  // Every direction comes from a step of the reply.

  /** d is what step j of leg i builds when its location is found at d's offset,
      and the route point at that offset matches the step's location. */
  predicate BuiltFrom(route: seq<LatLon>, legs: JsonArray, leftSide: bool, env: Env, d: Direction, i: nat, j: nat) {
    i < |legs| && legs[i].Obj? && "steps" in legs[i].fields && legs[i].fields["steps"].Arr? &&
    var m := ReadManeuver(legs[i].fields["steps"].items, j);
    m.Ok? && d.routePointOffset < |route| &&
    env.areLatLonEqual(route[d.routePointOffset], m.value.lat, m.value.lon) &&
    BuildDirection(m.value, d.routePointOffset, leftSide, env) == Ok(d)
  }

  /** d was built from some step of the legs. */
  ghost predicate FromSomeStep(route: seq<LatLon>, legs: JsonArray, leftSide: bool, env: Env, d: Direction) {
    exists i: nat, j: nat :: BuiltFrom(route, legs, leftSide, env, d, i, j)
  }

  /** Every direction of the list was built from some step of the legs. */
  ghost predicate Grounded(route: seq<LatLon>, legs: JsonArray, leftSide: bool, env: Env, directions: seq<Direction>) {
    forall k :: 0 <= k < |directions| ==> FromSomeStep(route, legs, leftSide, env, directions[k])
  }

  /** A pass of the step loop of leg i keeps every direction built from a step. */
  lemma StepKeepsGrounded(legs: JsonArray, i: nat, steps: JsonArray, j: nat, route: seq<LatLon>, s: Scan,
                          leftSide: bool, env: Env, t: Scan)
    requires i < |legs| && legs[i].Obj? && "steps" in legs[i].fields && legs[i].fields["steps"] == Arr(steps)
    requires Grounded(route, legs, leftSide, env, s.directions)
    requires StepBody(steps, route, leftSide, env)(j, s) == Ok(t)
    ensures Grounded(route, legs, leftSide, env, t.directions)
  {
    StepSpec(steps, j, route, s, leftSide, env, t);
    if t != s {
      forall k | 0 <= k < |t.directions|
        ensures FromSomeStep(route, legs, leftSide, env, t.directions[k])
      {
        if k < |s.directions| {
          assert t.directions[k] == s.directions[k];
        } else {
          assert BuiltFrom(route, legs, leftSide, env, t.directions[k], i, j);
        }
      }
    }
  }

  /** A pass of the leg loop keeps every direction built from a step. */
  lemma LegKeepsGrounded(legs: JsonArray, i: nat, route: seq<LatLon>, s: Scan, leftSide: bool, env: Env, t: Scan)
    requires Grounded(route, legs, leftSide, env, s.directions)
    requires LegBody(legs, route, leftSide, env)(i, s) == Ok(t)
    ensures Grounded(route, legs, leftSide, env, t.directions)
  {
    var leg := ArrayGetObject(legs, i).value;
    if Has(leg, "steps") {
      var steps := GetArray(leg, "steps").value;
      var body := StepBody(steps, route, leftSide, env);
      var inv := (x: Scan) => Grounded(route, legs, leftSide, env, x.directions);
      forall j: nat, x: Scan | inv(x) && body(j, x).Ok?
        ensures inv(body(j, x).value)
      {
        StepKeepsGrounded(legs, i, steps, j, route, x, leftSide, env, body(j, x).value);
      }
      LoopKeeps(body, inv, |steps|, s);
    }
  }

  /** Every direction of a response was built from some step j of some leg i of
      the reply: the decoded route point at its offset matches that step's
      location, and the direction is what the step builds at that offset. */
  lemma ResponseDirectionsMatchSteps(root: JsonObject, leftSide: bool, env: Env)
    requires ParseResponse(root, leftSide, env).Response?
    ensures "legs" in root && root["legs"].Arr?
    ensures var r := ParseResponse(root, leftSide, env);
            forall k :: 0 <= k < |r.directions| ==>
              FromSomeStep(r.route, root["legs"].items, leftSide, env, r.directions[k])
  {
    var route := env.decodePolyline(GetString(root, "geometry").value, PRECISION_5);
    var legs := GetArray(root, "legs").value;
    var body := LegBody(legs, route, leftSide, env);
    var inv := (x: Scan) => Grounded(route, legs, leftSide, env, x.directions);
    forall i: nat, x: Scan | inv(x) && body(i, x).Ok?
      ensures inv(body(i, x).value)
    {
      LegKeepsGrounded(legs, i, route, x, leftSide, env, body(i, x).value);
    }
    LoopKeeps(body, inv, |legs|, Scan(0, []));
    assert ParseResponse(root, leftSide, env).directions == RunLoop(body, |legs|, Scan(0, [])).value.directions;
  }
}
