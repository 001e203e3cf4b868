/** Option and Result wrappers, and the Python exceptions the core raises on purpose. */
module Wrappers {
  datatype Option<T> = None | Some(value: T)
  {
    function GetOr(default: T): T { if Some? then value else default }
  }

  /** The exception kinds that the modelled Python code raises or lets escape. */
  datatype Exc =
    | ValueError(msg: string)
    | TypeError(msg: string)
    | KeyError(key: string)
    | NotImplementedError(msg: string)
    | AttributeError(msg: string)
    | IndexError(msg: string)

  datatype Result<T> = Ok(value: T) | Err(error: Exc)
  {
    /** The failure protocol of `:-`: an Err propagates unchanged. */
    predicate IsFailure() { Err? }

    function PropagateFailure<U>(): Result<U>
      requires Err?
    {
      Err(error)
    }

    function Extract(): T
      requires Ok?
    {
      value
    }
  }
}
