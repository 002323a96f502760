/** The exceptions the modelled code can raise, as values. */
module Errors {

  datatype Error =
    /** `Blazer::Error` raised by the data-source table for a key it does not hold. */
    | UnknownDataSource(id: string)
    /** `NoMethodError`: `each` sent to the setting under `key`, which is not a mapping. */
    | NotEnumerable(key: string)
    /** `TypeError`: `dig` through the setting under `key`, which is not a mapping. */
    | NotDiggable(key: string)

  /** The text an operator sees for an error: the message for a Blazer error, the class otherwise. */
  function Message(e: Error): (m: string)
    ensures e.UnknownDataSource? ==> m == "Unknown data source: " + e.id
  {
    match e
    case UnknownDataSource(id) => "Unknown data source: " + id
    case NotEnumerable(_) => "NoMethodError"
    case NotDiggable(_) => "TypeError"
  }
}
