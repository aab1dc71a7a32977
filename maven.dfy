/** The parts of the Maven plugin API that `execute` produces: log lines and its outcome. */
module Maven {

  /** One line written through `getLog()`. */
  datatype LogEntry = Info(message: string) | Warn(message: string)

  /** How `execute` ends: a normal return, or one of the two exceptions a mojo may throw. */
  datatype Outcome =
    | Returned
    | ExecutionException(message: string)   // MojoExecutionException: the build errors out
    | FailureException(message: string)     // MojoFailureException: the build fails
}
