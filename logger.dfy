/**
 * The process-wide logger state that the processor configures: its severity
 * threshold, its output and its formatter. The logger library itself is not
 * part of this model; only the assignments the processor makes to it are.
 */
module GlobalLogger {
  import opened Outputs

  /** The logger's output: the library default, or a fan-out over writers. */
  datatype Output = DefaultOutput | MultiWriter(writers: seq<Writer>)

  /** A formatter, known only by identity. */
  datatype Formatter = DefaultFormatter | CustomFormatter(id: nat)

  class Logger {
    var severity: int
    var output: Output
    var formatter: Formatter

    constructor (severity: int, output: Output, formatter: Formatter)
      ensures this.severity == severity && this.output == output && this.formatter == formatter
    {
      this.severity := severity;
      this.output := output;
      this.formatter := formatter;
    }
  }
}
