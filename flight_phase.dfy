/** The flight phases of the rev1Pro flight state machine that the filter
    and the preprocessing task tell apart. */
module FlightPhases {
  /** MOVING, READY, THRUSTING_1 and COASTING; every other phase of the
      state machine is OtherPhase. */
  datatype FlightPhase = Moving | Ready | Thrusting1 | Coasting | OtherPhase
}
