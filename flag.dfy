/** The part of Go's `flag` package the command layer uses. */
module Flag {
  /** `flag.ErrorHandling`: what a command does after reporting an error. */
  datatype ErrorHandling = ContinueOnError | ExitOnError | PanicOnError
}
