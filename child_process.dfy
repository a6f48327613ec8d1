/**
 * The external transcoder process as the camera code sees it: a handle
 * created by `spawn(command, args)` and later sent a signal with `kill`.
 * The process itself (its output, its exit) is not modelled; the handle
 * remembers what it was started with and which signals it has received.
 */
module ChildProcesses {

  class ChildProcess {
    /** The program that was started. */
    const command: string
    /** The argument vector it was started with. */
    const args: seq<string>
    /** Every signal sent to this process so far, oldest first. */
    ghost var signals: seq<string>

    /** `spawn(command, args)`: a new process handle that has received no signal. */
    constructor Spawn(command: string, args: seq<string>)
      ensures this.command == command && this.args == args
      ensures signals == []
    {
      this.command := command;
      this.args := args;
      signals := [];
    }

    /** `process.kill(signal)`: the signal is delivered, nothing else changes. */
    method Kill(signal: string)
      modifies this
      ensures signals == old(signals) + [signal]
    {
      signals := signals + [signal];
    }
  }
}
