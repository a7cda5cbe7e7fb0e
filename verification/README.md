# OSRM response parser of OsmAnd's online routing, in Dafny

This project models `OsrmParser`, the parser OsmAnd uses for replies from an
OSRM routing engine. It receives one OSRM route object, already parsed as JSON.
It decodes the route's `geometry` polyline into route points. It then walks
`legs[].steps[]` in order and turns each step into a turn-by-turn direction:
- the index of the route point where the step's maneuver happens (found by a
  forward scan that resumes from the previous match);
- a turn type, from the maneuver's type, modifier, roundabout exit and bearings;
- the distance rounded to whole metres;
- the street name and a description text.

The model has these parts:
- `JavaLang`: `Math.round`, the `(int)` casts and `String.trim`, with Java's
  integer widths written out.
- `Json`: the JSON values and the `org.json` accessors the parser calls. An
  accessor that would throw `JSONException` returns `Err`.
- `TurnTypes` and `External`: what the parser builds and calls but whose code is
  not part of this model. The polyline decoder, the coordinate comparison
  `MapUtils.areLatLonEqual`, `MapUtils.degreesDiff` and the localized turn text
  are fields of an `Env` value. They are total functions about which nothing is
  assumed.
- `OsrmTurns`: `parseTurnType` and `identifyTurnType`, as functions.
- `OsrmLocator`: `getLocationIndexInList`, as a method with its loop, proved
  equal to a recursive function whose meaning is proved separately.
- `OsrmParser`: the meaning of `parseServerResponse` (`ParseResponse`) and the
  method with its nested loops over legs and steps (`ParseServerResponse`).
  - The method is proved to compute exactly `ParseResponse`. The two loops are
    described by one prefix fold, `RunLoop`: it runs a loop body pass by pass,
    and the first exception ends it.
  - A loop pass carries `startSearchingId` and the directions list.
- `OsrmInvariants`: what every response satisfies.
  - Offsets are route indices and never decrease.
  - The search cursor ends on the last offset.
  - Every direction was built from some step of the reply, at a route point
    matching that step's location.
- `OsrmScenarios`: worked examples.
  - Four replies run through `ParseResponse`: a right turn, an arrival, an empty
    geometry and a step that lies off the route.
  - One maneuver runs through `ParseTurnType` alone: a roundabout exit.
  - The replies use the polyline "ozn_I_htpA_k@kv@oQcF". Under the Encoded
    Polyline Algorithm at precision 5 it stands for three points near the
    Brandenburg Gate: (52.51, 13.38), (52.51704, 13.38886) and (52.52, 13.39).
  - Each scenario requires only what the decoder and the coordinate comparison
    do on these points: the decoding is those three points, each point equals
    its own location and not the others, and none equals the off-route location.
    The empty-geometry scenario requires only that "" decodes to no points.

Two behaviours of the code that a reader might expect otherwise:
- A reply without a `geometry` string fails with an exception. The code calls
  `root.getString("geometry")`, which throws; it does not give "no result".
  Only a geometry that decodes to no points gives no response (null).
- The average speed is not guarded against a zero duration in the code. The
  model leaves the average speed out (see below), but a missing or non-numeric
  `duration` of a matched step still fails the call, as the code's read does.

## Model

| member | source | states |
|---|---|---|
| JavaLang.MathRoundSpec | OsmAnd/src/net/osmand/plus/onlinerouting/parser/OsrmParser.java:58 | `Math.round` lies in the range of long, and it is the nearest long to x, ties upward, whenever x is in that range |
| JavaLang.LongToIntSpec | OsmAnd/src/net/osmand/plus/onlinerouting/parser/OsrmParser.java:58 | the `(int)` cast from long gives an int congruent to its argument modulo 2^32, and is the identity on values that fit |
| JavaLang.RoundToIntIsNearest | OsmAnd/src/net/osmand/plus/onlinerouting/parser/OsrmParser.java:58 | within the int range, `(int) Math.round(x)` is the integer nearest x, ties upward |
| JavaLang.DoubleToIntSpec | OsmAnd/src/net/osmand/plus/onlinerouting/parser/OsrmParser.java:128-129 | `Double.intValue`, which `getInt` applies to a number held as a Double, truncates toward zero inside the int range and saturates at its bounds outside it |
| JavaLang.TrimStartSpec | OsmAnd/src/net/osmand/plus/onlinerouting/parser/OsrmParser.java:72 | cutting the front keeps a suffix, removes only characters up to U+0020, and stops at the first other character |
| JavaLang.TrimEndSpec | OsmAnd/src/net/osmand/plus/onlinerouting/parser/OsrmParser.java:72 | cutting the back keeps a prefix, removes only characters up to U+0020, and stops at the last other character |
| JavaLang.TrimSpec | OsmAnd/src/net/osmand/plus/onlinerouting/parser/OsrmParser.java:72 | `trim` gives a slice of its argument whose ends are not removable, and everything cut off on either side is removable |
| Json.GetString | OsmAnd/src/net/osmand/plus/onlinerouting/parser/OsrmParser.java:32 | `getString` succeeds exactly when the key holds a string, and then gives that string |
| Json.GetDouble | OsmAnd/src/net/osmand/plus/onlinerouting/parser/OsrmParser.java:58-60 | `getDouble` succeeds exactly when the key holds a number, and then gives that number |
| Json.GetInt | OsmAnd/src/net/osmand/plus/onlinerouting/parser/OsrmParser.java:111 | `getInt` succeeds exactly when the key holds a number, and then gives an int: that number's `intValue` |
| Json.IntValueSpec | OsmAnd/src/net/osmand/plus/onlinerouting/parser/OsrmParser.java:128-129 | `intValue` of an integer literal within the range of long wraps modulo 2^32 and keeps a value that fits in an int; any other number is truncated toward zero and saturated |
| Json.LongLiteralWraps | OsmAnd/src/net/osmand/plus/onlinerouting/parser/OsrmParser.java:111 | an exit written 3000000000 reads as -1294967296, and written 3000000000.0 as 2147483647 |
| Json.GetArray | OsmAnd/src/net/osmand/plus/onlinerouting/parser/OsrmParser.java:39 | `getJSONArray` succeeds exactly when the key holds an array, and then gives its items |
| Json.GetObject | OsmAnd/src/net/osmand/plus/onlinerouting/parser/OsrmParser.java:47 | `getJSONObject` succeeds exactly when the key holds an object, and then gives its fields |
| Json.ArrayGetObject | OsmAnd/src/net/osmand/plus/onlinerouting/parser/OsrmParser.java:41 | `JSONArray.getJSONObject(i)` succeeds exactly when i is in range and the item is an object |
| Json.ArrayGetDouble | OsmAnd/src/net/osmand/plus/onlinerouting/parser/OsrmParser.java:51-52 | `JSONArray.getDouble(i)` succeeds exactly when i is in range and the item is a number |
| OsrmTurns.IdentifyTurnTypeSpec | OsmAnd/src/net/osmand/plus/onlinerouting/parser/OsrmParser.java:137-174 | `identifyTurnType` gives a turn exactly for the eight modifiers of the vocabulary, matched case-sensitively, and the turn it gives is the one its modifier names on the given driving side; any other string gives nothing |
| OsrmTurns.IdentifyTurnTypeRecognisesVocabulary | OsmAnd/src/net/osmand/plus/onlinerouting/parser/OsrmParser.java:140-173 | each of uturn, sharp right, right, slight right, straight, slight left, left and sharp left maps to TU, TSHR, TR, TSLR, C, TSLL, TL and TSHL respectively |
| OsrmTurns.ClassifySpec | OsmAnd/src/net/osmand/plus/onlinerouting/parser/OsrmParser.java:107-126 | classification is total. It is an exit turn exactly for a roundabout, rotary or roundabout turn with an exit, whatever the modifier. Otherwise it is the turn a known modifier names. Otherwise it is straight |
| OsrmTurns.ParseTurnTypeFails | OsmAnd/src/net/osmand/plus/onlinerouting/parser/OsrmParser.java:97-134 | `parseTurnType` throws exactly when one of these is missing or of the wrong kind: the type, a present modifier, a present exit of a roundabout, or either bearing |
| OsrmTurns.ParseTurnTypeResult | OsmAnd/src/net/osmand/plus/onlinerouting/parser/OsrmParser.java:101-131 | a parsed turn carries the classification of the fields read, and the angle `degreesDiff(bearing_after, bearing_before)` whatever the classification |
| OsrmTurns.RoundaboutExitWins | OsmAnd/src/net/osmand/plus/onlinerouting/parser/OsrmParser.java:107-112 | a roundabout-type maneuver with an exit is the exit turn for that exit number, whatever its modifier |
| OsrmTurns.UnknownModifierIsStraight | OsmAnd/src/net/osmand/plus/onlinerouting/parser/OsrmParser.java:113-126 | outside the exit rule, a missing or unknown modifier gives straight |
| OsrmTurns.KnownModifierGivesItsTurn | OsmAnd/src/net/osmand/plus/onlinerouting/parser/OsrmParser.java:113-123 | outside the exit rule, a modifier of the vocabulary gives the turn it names, for roundabouts without exit as for other types |
| OsrmLocator.LocationIndexSpec | OsmAnd/src/net/osmand/plus/onlinerouting/parser/OsrmParser.java:85-94 | the scan finds the smallest index at or after the start whose point matches, and finds nothing exactly when no index from the start on matches |
| OsrmLocator.GetLocationIndexInList | OsmAnd/src/net/osmand/plus/onlinerouting/parser/OsrmParser.java:85-94 | the index loop with early return computes exactly that scan |
| OsrmLocator.LocationIndexResumes | OsmAnd/src/net/osmand/plus/onlinerouting/parser/OsrmParser.java:53-55 | resuming the scan from a later index changes nothing as long as no point in between matches, which is what resuming from the previous match relies on |
| OsrmParser.RootArrayKey | OsmAnd/src/net/osmand/plus/onlinerouting/parser/OsrmParser.java:178-180 | the routes of an OSRM reply are under "routes" |
| OsrmParser.ErrorMessageKey | OsmAnd/src/net/osmand/plus/onlinerouting/parser/OsrmParser.java:184-186 | the failure message of an OSRM reply is under "message" |
| OsrmParser.ReadManeuverReads | OsmAnd/src/net/osmand/plus/onlinerouting/parser/OsrmParser.java:46-52 | a step read without exception is an object with a maneuver object, a type string, and a location whose first number is the longitude and second the latitude |
| OsrmParser.ReadManeuverFails | OsmAnd/src/net/osmand/plus/onlinerouting/parser/OsrmParser.java:46-52 | reading a step throws exactly when the step, its maneuver, the type or the two-number location is missing or of the wrong kind |
| OsrmParser.DescribeSpec | OsmAnd/src/net/osmand/plus/onlinerouting/parser/OsrmParser.java:68-72 | the description is empty for "arrive". Its first and last characters are above U+0020. For a non-arrive step whose turn text is non-empty and has first and last characters above U+0020, the description is the text alone when the street name is empty. It is "text name" when the name is non-empty and its last character is above U+0020. |
| OsrmParser.BuildDirectionFails | OsmAnd/src/net/osmand/plus/onlinerouting/parser/OsrmParser.java:58-67 | building a matched step's direction throws exactly when distance or duration is not a number, the turn cannot be parsed, or name is not a string |
| OsrmParser.BuildDirectionFields | OsmAnd/src/net/osmand/plus/onlinerouting/parser/OsrmParser.java:58-76 | a built direction has the offset it was found at, the street name unchanged, the rounded distance and the parsed turn. Its description is empty for "arrive" and otherwise the trimmed turn text and street name |
| OsrmParser.LoopAdvances | OsmAnd/src/net/osmand/plus/onlinerouting/parser/OsrmParser.java:40-78 | a loop that ran n passes without exception continues with pass n from the state they left |
| OsrmParser.LoopLastPass | OsmAnd/src/net/osmand/plus/onlinerouting/parser/OsrmParser.java:40-78 | a loop that ends without exception ran its earlier passes without exception, and its last pass led from their state to the final one |
| OsrmParser.StepSkipped | OsmAnd/src/net/osmand/plus/onlinerouting/parser/OsrmParser.java:53-54 | a step whose location is not found adds no direction and leaves startSearchingId as it was |
| OsrmParser.StepMatched | OsmAnd/src/net/osmand/plus/onlinerouting/parser/OsrmParser.java:53-77 | a step found at an offset moves startSearchingId there and appends its direction, or throws what building the direction throws |
| OsrmParser.StepUnreadable | OsmAnd/src/net/osmand/plus/onlinerouting/parser/OsrmParser.java:46-52 | a step whose maneuver, type or location cannot be read throws before the lookup, even if its location would not be found |
| OsrmParser.LegOutcome | OsmAnd/src/net/osmand/plus/onlinerouting/parser/OsrmParser.java:41-42 | a leg object without "steps" leaves the cursor and the directions unchanged |
| OsrmParser.ParseResponse | OsmAnd/src/net/osmand/plus/onlinerouting/parser/OsrmParser.java:32-39 | a missing geometry throws. A geometry that decodes to no points gives null, before legs is read. Otherwise a missing legs array throws. A response carries the decoded points |
| OsrmParser.FailureEndsLoop | OsmAnd/src/net/osmand/plus/onlinerouting/parser/OsrmParser.java:40-45 | once a pass throws, the loop's outcome is that exception, however many passes remain |
| OsrmParser.ExceptionEndsLoop | OsmAnd/src/net/osmand/plus/onlinerouting/parser/OsrmParser.java:40-45 | the exception thrown by pass k, after earlier passes completed, is what the whole loop ends with |
| OsrmParser.StepExceptionFailsReply | OsmAnd/src/net/osmand/plus/onlinerouting/parser/OsrmParser.java:29-82 | a step that throws, in a leg the loop reaches, makes the whole call throw that exception, with no partial result |
| OsrmParser.ParseStep | OsmAnd/src/net/osmand/plus/onlinerouting/parser/OsrmParser.java:46-77 | one pass of the step loop computes exactly the step's meaning |
| OsrmParser.ParseSteps | OsmAnd/src/net/osmand/plus/onlinerouting/parser/OsrmParser.java:44-78 | the step loop, threading startSearchingId and the directions list, computes exactly the fold of the step passes in array order |
| OsrmParser.ParseLeg | OsmAnd/src/net/osmand/plus/onlinerouting/parser/OsrmParser.java:41-78 | one pass of the leg loop: a leg without steps is skipped, otherwise its steps run from the current state |
| OsrmParser.ParseServerResponse | OsmAnd/src/net/osmand/plus/onlinerouting/parser/OsrmParser.java:29-82 | the method with its nested loops computes exactly the meaning `ParseResponse` |
| OsrmInvariants.LoopKeeps | OsmAnd/src/net/osmand/plus/onlinerouting/parser/OsrmParser.java:40-78 | a property every loop pass keeps holds after any number of passes that do not throw |
| OsrmInvariants.StepSpec | OsmAnd/src/net/osmand/plus/onlinerouting/parser/OsrmParser.java:46-77 | a step pass that does not throw does one of two things. Either no point from startSearchingId on matches and nothing changes. Or startSearchingId moves to the first matching point and exactly the direction built for the step at that offset is appended |
| OsrmInvariants.StepKeepsValid | OsmAnd/src/net/osmand/plus/onlinerouting/parser/OsrmParser.java:53-77 | a step pass keeps the cursor a route index on the last offset, with nondecreasing offsets, and only appends |
| OsrmInvariants.StepsKeepValid | OsmAnd/src/net/osmand/plus/onlinerouting/parser/OsrmParser.java:45-78 | the step loop of a leg keeps that state consistent and keeps the directions it started with |
| OsrmInvariants.LegKeepsValid | OsmAnd/src/net/osmand/plus/onlinerouting/parser/OsrmParser.java:40-78 | a leg pass keeps that state consistent and keeps the directions it started with |
| OsrmInvariants.LegsKeepValid | OsmAnd/src/net/osmand/plus/onlinerouting/parser/OsrmParser.java:38-78 | the whole leg loop, from cursor 0 and no directions, ends consistent, and the cursor has moved only if directions were added |
| OsrmInvariants.ResponseDirectionsFollowRoute | OsmAnd/src/net/osmand/plus/onlinerouting/parser/OsrmParser.java:53-77 | every direction of a response has an offset inside the route, and offsets never decrease in output order |
| OsrmInvariants.FinalCursor | OsmAnd/src/net/osmand/plus/onlinerouting/parser/OsrmParser.java:38-55 | after the leg loop, startSearchingId is the last direction's offset, or 0 when none was emitted |
| OsrmInvariants.StepKeepsGrounded | OsmAnd/src/net/osmand/plus/onlinerouting/parser/OsrmParser.java:53-77 | a step pass of leg i keeps every direction traceable to a step of the reply |
| OsrmInvariants.LegKeepsGrounded | OsmAnd/src/net/osmand/plus/onlinerouting/parser/OsrmParser.java:40-78 | a leg pass keeps every direction traceable to a step of the reply |
| OsrmInvariants.ResponseDirectionsMatchSteps | OsmAnd/src/net/osmand/plus/onlinerouting/parser/OsrmParser.java:53-77 | every direction of a response was built from some step j of some leg i: the route point at its offset matches that step's location, and the direction is what the step builds at that offset |
| OsrmScenarios.SingleLegLoop | OsmAnd/src/net/osmand/plus/onlinerouting/parser/OsrmParser.java:40-45 | the leg loop over one leg with steps is the step loop over those steps |
| OsrmScenarios.SingleLegReply | OsmAnd/src/net/osmand/plus/onlinerouting/parser/OsrmParser.java:29-82 | a one-leg reply with decodable geometry gives the step loop's directions, or its exception |
| OsrmScenarios.RightTurnReads | OsmAnd/src/net/osmand/plus/onlinerouting/parser/OsrmParser.java:46-52 | the right-turn step reads as a "turn" at the scenario's longitude and latitude |
| OsrmScenarios.RightTurnClassifies | OsmAnd/src/net/osmand/plus/onlinerouting/parser/OsrmParser.java:117-131 | a "turn" with modifier "right" and bearings 10 and 100 is a right turn by degreesDiff(100, 10) |
| OsrmScenarios.RightTurnBuilds | OsmAnd/src/net/osmand/plus/onlinerouting/parser/OsrmParser.java:58-76 | the right-turn step builds a 120 m right turn on its street at any offset |
| OsrmScenarios.RightTurnAlone | OsmAnd/src/net/osmand/plus/onlinerouting/parser/OsrmParser.java:29-82 | the one-step right-turn reply is the decoded route and exactly the direction that step builds at offset 1 |
| OsrmScenarios.RightTurnScenario | OsmAnd/src/net/osmand/plus/onlinerouting/parser/OsrmParser.java:29-82 | three route points, a right turn at the middle one, 120.4 m: one direction at offset 1, a right turn, 120 m, with its street name |
| OsrmScenarios.ArriveScenario | OsmAnd/src/net/osmand/plus/onlinerouting/parser/OsrmParser.java:67-76 | an "arrive" step at the last route point is found at offset 2 and gets an empty description whatever its street name, which is still stored |
| OsrmScenarios.RoundaboutExitScenario | OsmAnd/src/net/osmand/plus/onlinerouting/parser/OsrmParser.java:107-131 | `parseTurnType` on a roundabout with exit 2 and no modifier gives the exit turn for exit 2, with the angle from its bearings |
| OsrmScenarios.EmptyGeometryScenario | OsmAnd/src/net/osmand/plus/onlinerouting/parser/OsrmParser.java:32-34 | the empty geometry decodes to no points and gives null, even when the reply has no legs |
| OsrmScenarios.LostStepScenario | OsmAnd/src/net/osmand/plus/onlinerouting/parser/OsrmParser.java:53-55 | a step off the route is dropped even without distance, duration or name. The next step is still looked up from the unchanged startSearchingId, and the reply equals the one without the dropped step |

## Left out

- The average speed (`OsrmParser.java:62`, float division of distance by duration) is not modelled. Floating point is out of scope, and a direction in the model has no average speed field. The duration is still read, and its absence still throws.
- Floating-point numbers are exact reals. NaN, infinities and double rounding of JSON numbers are not modelled. A number keeps only whether it was written as an integer literal, which decides how `getInt` narrows it; hexadecimal and octal literals are not modelled. The `(float)` cast of the angle (`OsrmParser.java:130`) is left out: the angle is `degreesDiff`'s result unchanged.
- Polyline decoding (`GeoPolylineParserUtil.parse`) is not part of this model. It is a parameter with no properties assumed; its round trip belongs to that utility.
- `MapUtils.areLatLonEqual` and `MapUtils.degreesDiff` are not part of this model. They are parameters, so their tolerance and angle range are not stated.
- `RouteCalculationResult.toString`, the localized turn text, is a parameter. The application context it needs is left out.
- `TurnType.valueOf`, `TurnType.getExitTurn` and `TurnType.straight` are recorded as the factory called and its arguments. The internals of `TurnType`, including how the driving side mirrors a turn, are not part of this model.
- `convertRouteToLocationsList` comes from the `JSONParser` base class, which is not part of this model. The route is the decoded point list itself.
- The coercions of `org.json` (a numeric string read by `getDouble`, a number read by `getString`) and JSON null values are left out. An accessor succeeds only on a value of its own kind.
- The dispatcher that picks the first element of "routes", detects "message" and makes the network call is left out. Only the two key names are modelled.
- OsrmLocator.GetLocationIndexInList: indices are unbounded naturals. The Java `int` index cannot overflow for any list that fits in memory.
- `RouteDirectionInfo` is a value holding the fields the parser sets, not an object updated in place. The list of directions is a sequence the loop reassigns.
- The two Android fragments of the repository (settings and map marker editor) hold no parser logic and are not modelled.
