/** The structured (zap) logger passed along with a request, reduced to the fields it carries. */
module Logs {

  /** `zap.String(key, value)`. */
  datatype Field = Field(key: string, value: string)

  datatype Logger = Logger(fields: seq<Field>) {

    /** `log.With(f)`: a child logger that carries one more field. */
    function With(f: Field): Logger
    {
      Logger(fields + [f])
    }
  }
}
