/** Turn classification of an OSRM maneuver: OsrmParser.parseTurnType and
    OsrmParser.identifyTurnType. */
module OsrmTurns {
  import opened Wrappers
  import opened Json
  import opened TurnTypes
  import External

  /** The maneuver types that go through the roundabout/exit rule. */
  predicate IsRoundabout(maneuverType: string) {
    maneuverType in {"roundabout", "rotary", "roundabout turn"}
  }

  /** The OSRM modifier naming each turn id: the fixed vocabulary of identifyTurnType. */
  function ModifierName(id: TurnId): string {
    match id
    case TU => "uturn"
    case TSHR => "sharp right"
    case TR => "right"
    case TSLR => "slight right"
    case C => "straight"
    case TSLL => "slight left"
    case TL => "left"
    case TSHL => "sharp left"
  }

  /** identifyTurnType: the switch over the modifier vocabulary. */
  const Vocabulary: map<string, TurnId> :=
    map["uturn" := TU, "sharp right" := TSHR, "right" := TR, "slight right" := TSLR,
        "straight" := C, "slight left" := TSLL, "left" := TL, "sharp left" := TSHL]

  function IdentifyTurnType(modifier: string, leftSide: bool): Option<TurnShape> {
    if modifier in Vocabulary then Some(ValueOf(Vocabulary[modifier], leftSide)) else None
  }

  /** identifyTurnType gives a turn type exactly for the eight modifiers of the
      vocabulary (compared case-sensitively), the one each names, and None for
      every other string. */
  lemma IdentifyTurnTypeSpec(modifier: string, leftSide: bool)
    ensures IdentifyTurnType(modifier, leftSide).Some? ==>
              var shape := IdentifyTurnType(modifier, leftSide).value;
              shape.ValueOf? && shape.leftSide == leftSide && ModifierName(shape.id) == modifier
    ensures IdentifyTurnType(modifier, leftSide).None? <==> forall id: TurnId :: ModifierName(id) != modifier
  {
  }

  /** Every word of the vocabulary is recognised, as the turn it names. */
  lemma IdentifyTurnTypeRecognisesVocabulary(id: TurnId, leftSide: bool)
    ensures IdentifyTurnType(ModifierName(id), leftSide) == Some(ValueOf(id, leftSide))
  {
  }

  /** The decision of parseTurnType once the fields are read: `exit` is the
      exit number when the type is a roundabout and the maneuver has one. */
  function Classify(maneuverType: string, modifier: Option<string>, exit: Option<int>,
                    leftSide: bool): TurnShape
  {
    var identified :=
      if IsRoundabout(maneuverType) && exit.Some? then Some(ExitTurn(exit.value, leftSide))
      else if modifier.Some? then IdentifyTurnType(modifier.value, leftSide)
      else None;
    if identified.Some? then identified.value else Straight
  }

  /** Classification is total: an exit turn exactly for a roundabout with an exit,
      whatever the modifier; otherwise the turn a modifier of the vocabulary names;
      otherwise straight. */
  lemma ClassifySpec(maneuverType: string, modifier: Option<string>, exit: Option<int>, leftSide: bool)
    ensures var r := Classify(maneuverType, modifier, exit, leftSide);
            (r.ExitTurn? <==> IsRoundabout(maneuverType) && exit.Some?) &&
            (r.ExitTurn? ==> r == ExitTurn(exit.value, leftSide)) &&
            (r.ValueOf? <==> !(IsRoundabout(maneuverType) && exit.Some?) && modifier.Some? &&
                             exists id: TurnId :: ModifierName(id) == modifier.value) &&
            (r.ValueOf? ==> r.leftSide == leftSide && ModifierName(r.id) == modifier.value) &&
            (r.Straight? <==> !(IsRoundabout(maneuverType) && exit.Some?) &&
                              (modifier.None? || forall id: TurnId :: ModifierName(id) != modifier.value))
  {
    if modifier.Some? {
      IdentifyTurnTypeSpec(modifier.value, leftSide);
    }
  }

  /** The exit number parseTurnType reads: only for a roundabout type, and only when present. */
  function ReadExit(maneuver: JsonObject, maneuverType: string): JResult<Option<int>> {
    if IsRoundabout(maneuverType) && Has(maneuver, "exit") then
      var exit :- GetInt(maneuver, "exit");
      Ok(Some(exit))
    else Ok(None)
  }

  /** The modifier parseTurnType reads, when present. */
  function ReadModifier(maneuver: JsonObject): JResult<Option<string>> {
    if Has(maneuver, "modifier") then
      var modifier :- GetString(maneuver, "modifier");
      Ok(Some(modifier))
    else Ok(None)
  }

  /** parseTurnType: reads the type, the optional modifier and, for a roundabout,
      the optional exit, classifies, then sets the angle from the two bearings. */
  function ParseTurnType(maneuver: JsonObject, leftSide: bool, env: External.Env): JResult<TurnType>
  {
    var maneuverType :- GetString(maneuver, "type");
    var modifier :- ReadModifier(maneuver);
    var exit :- ReadExit(maneuver, maneuverType);
    var shape := Classify(maneuverType, modifier, exit, leftSide);
    var bearingBefore :- GetInt(maneuver, "bearing_before");
    var bearingAfter :- GetInt(maneuver, "bearing_after");
    Ok(TurnType(shape, env.degreesDiff(bearingAfter, bearingBefore)))
  }

  /** parseTurnType fails exactly when a field it reads is missing or of the wrong
      kind: the type, the modifier when present, the exit when present on a
      roundabout, and both bearings. */
  lemma ParseTurnTypeFails(maneuver: JsonObject, leftSide: bool, env: External.Env)
    ensures ParseTurnType(maneuver, leftSide, env).Err? <==>
              !(Has(maneuver, "type") && maneuver["type"].Str?) ||
              (Has(maneuver, "modifier") && !maneuver["modifier"].Str?) ||
              (IsRoundabout(maneuver["type"].s) && Has(maneuver, "exit") && !maneuver["exit"].Num?) ||
              !(Has(maneuver, "bearing_before") && maneuver["bearing_before"].Num?) ||
              !(Has(maneuver, "bearing_after") && maneuver["bearing_after"].Num?)
  {
  }

  /** A parsed turn type carries the classification of the fields read and the
      angle degreesDiff(bearing_after, bearing_before), whatever the classification. */
  lemma ParseTurnTypeResult(maneuver: JsonObject, leftSide: bool, env: External.Env, t: TurnType)
    requires ParseTurnType(maneuver, leftSide, env) == Ok(t)
    ensures "bearing_before" in maneuver && "bearing_after" in maneuver
    ensures t.angle == env.degreesDiff(IntValue(maneuver["bearing_after"]), IntValue(maneuver["bearing_before"]))
    ensures "type" in maneuver &&
            var exit := if IsRoundabout(maneuver["type"].s) && Has(maneuver, "exit")
                        then Some(IntValue(maneuver["exit"])) else None;
            var modifier := if Has(maneuver, "modifier") then Some(maneuver["modifier"].s) else None;
            t.shape == Classify(maneuver["type"].s, modifier, exit, leftSide)
  {
  }

  /** A roundabout maneuver with an exit number is the exit turn for that number,
      whatever its modifier says. */
  lemma RoundaboutExitWins(maneuver: JsonObject, leftSide: bool, env: External.Env)
    requires ParseTurnType(maneuver, leftSide, env).Ok?
    requires IsRoundabout(maneuver["type"].s) && Has(maneuver, "exit")
    ensures ParseTurnType(maneuver, leftSide, env).value.shape ==
              ExitTurn(IntValue(maneuver["exit"]), leftSide)
  {
  }

  /** Without a recognised modifier (and outside the exit rule), the result is straight. */
  lemma UnknownModifierIsStraight(maneuver: JsonObject, leftSide: bool, env: External.Env)
    requires ParseTurnType(maneuver, leftSide, env).Ok?
    requires !(IsRoundabout(maneuver["type"].s) && Has(maneuver, "exit"))
    requires Has(maneuver, "modifier") ==>
               forall id: TurnId :: ModifierName(id) != maneuver["modifier"].s
    ensures ParseTurnType(maneuver, leftSide, env).value.shape == Straight
  {
    if Has(maneuver, "modifier") {
      IdentifyTurnTypeSpec(maneuver["modifier"].s, leftSide);
    }
  }

  /** Outside the exit rule, a modifier of the vocabulary gives the turn it names. */
  lemma KnownModifierGivesItsTurn(maneuver: JsonObject, leftSide: bool, env: External.Env, id: TurnId)
    requires ParseTurnType(maneuver, leftSide, env).Ok?
    requires !(IsRoundabout(maneuver["type"].s) && Has(maneuver, "exit"))
    requires Has(maneuver, "modifier") && maneuver["modifier"] == Json.Str(ModifierName(id))
    ensures ParseTurnType(maneuver, leftSide, env).value.shape == ValueOf(id, leftSide)
  {
  }
}
