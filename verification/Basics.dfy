/** Types shared by the models. */
module Basics {

  datatype Option<+T> = None | Some(value: T)

  /** A JSON-RPC request id. */
  datatype RequestId = StringId(text: string) | IntegerId(number: int)
}
