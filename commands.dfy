/** What the services get back from a subprocess, and the shape of their replies. */
module Commands {

  /**
   * The dict `_run_command` returns: the exit code (-1 when the command could not be
   * started or timed out) and the captured output streams.
   */
  datatype CmdResult = CmdResult(returncode: int, stdout: string, stderr: string)

  /** The subprocesses a service runs, as the result each argument vector produces. */
  type Runner = seq<string> -> CmdResult

  /** A `{"status": ..., "message": ...}` reply. */
  datatype Reply = Reply(status: string, message: string)
}
