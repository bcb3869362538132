/** The outcome of the TCP probe `checkGatewayStatus` runs in the OpenClaw
    generations, as its state handler sees it: the connection became ready,
    failed, is waiting (refused), or is in any other state (setup, preparing,
    cancelled), which leaves the flag alone. */
module GatewayProbe {
  datatype ProbeState = Ready | Failed | Waiting | Preparing
}
