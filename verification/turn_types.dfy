/** The part of OsmAnd's TurnType that the OSRM parser builds. TurnType.valueOf,
    TurnType.getExitTurn and TurnType.straight are treated as opaque
    constructors: the model records which factory was called, with what. */
module TurnTypes {

  /** The value ids passed to TurnType.valueOf by the parser. */
  datatype TurnId =
    | C     // continue straight
    | TL    // turn left
    | TSLL  // slight left
    | TSHL  // sharp left
    | TR    // turn right
    | TSLR  // slight right
    | TSHR  // sharp right
    | TU    // U-turn

  /** How the turn type was made. */
  datatype TurnShape =
    | ValueOf(id: TurnId, leftSide: bool)     // TurnType.valueOf(id, leftSide)
    | ExitTurn(exit: int, leftSide: bool)     // TurnType.getExitTurn(exit, 0.0f, leftSide)
    | Straight                                // TurnType.straight()

  /** A turn type together with the angle set on it by setTurnAngle. */
  datatype TurnType = TurnType(shape: TurnShape, angle: real)
}
