/** The `shutdown_requested` flag that each tool server keeps as a module
    global, and the `signal_handler` that sets it. */
module Shutdown {

  /** The message every tool raises, unprefixed, once shutdown was requested. */
  const ShuttingDownMessage: string := "Server is shutting down"

  class ShutdownFlag {
    var requested: bool

    /** The flag starts cleared when the server module is loaded. */
    constructor ()
      ensures !requested
    {
      requested := false;
    }

    /** SIGINT/SIGTERM handler: sets the flag and never clears it, so a
        repeated signal leaves the same state as the first. */
    method SignalHandler()
      modifies this
      ensures requested
    {
      requested := true;
    }
  }
}
