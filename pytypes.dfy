/** Python-level values and exceptions that the particle-hub model manipulates. */
module PyTypes {

  datatype Option<+T> = None | Some(value: T)

  datatype Result<+T, +E> = Ok(value: T) | Err(error: E)

  /** A JSON value as the hub sees it: Python `None`, an empty `dict()` (what
      `Device.get_variable_data` returns for an unknown variable), or a scalar,
      carried as its text. */
  datatype Value = Null | EmptyDict | Str(text: string)

  /** The exceptions the modelled code can raise or catch. */
  datatype PyError =
    | KeyError(key: string)           // dict lookup of a missing key
    | IndexError                      // string index out of range
    | TypeError                       // subscripting or iterating `None`
    | AttributeError                  // `None.keys()`
    | CloudCommunicationError         // raised by `ParticleCloud.get_devices`
    | RequestException                // raised by `requests.get`, never caught in the core

  /** A device's tag map, its variable state, and the tag map attached to every logged point. */
  type Tags = map<string, Value>
}
