/** The state machine of one RTMP output (src/core/OutputState.hpp), as every user of it sees it. */
module OutputStates {

  datatype OutputState = Idle | Starting | Live | Reconnecting | FailedHard
}
