/**
 * The shape shared by the telemetry producer and the prediction pipeline:
 * a snapshot document is a mapping from field names to values.
 */
module Telemetry {

  /** A value stored under one key of a snapshot: text, or a number as the producer measured it. */
  datatype Value = Text(text: string) | Int(i: int) | Float(x: real)

  /** One snapshot document (a JSON object, a DynamoDB item). */
  type Record = map<string, Value>
}
