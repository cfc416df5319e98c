/** The operator-facing notices the scripts show through their UI toolkit. */
module Notices {

  /** The three kinds of notice the scripts use: success, warning and error boxes. */
  datatype Level = Success | Warning | Error

  /** One notice: its kind and its text. */
  datatype Notice = Notice(level: Level, text: string)
}
