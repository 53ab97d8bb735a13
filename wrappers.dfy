/** Option and Result values, and the exception kinds of the gateway (mcp/exceptions.py
    plus the Python built-in exceptions the core raises or catches). */
module Wrappers {

  datatype Option<+T> = None | Some(value: T) {
    function GetOr(default: T): T {
      match this
      case Some(v) => v
      case None => default
    }
  }

  /** The exception kinds the core distinguishes. `msg` is what `str(e)` gives. */
  datatype Error =
    | ValueError(msg: string)
    | KeyError(msg: string)
    | RuntimeError(msg: string)
    | TypeError(msg: string)
    | AttributeError(msg: string)
    | NotImplementedError(msg: string)
    | ValidationError(msg: string)          // a pydantic model rejected its input
    | ProtocolError(msg: string)
    | ProviderError(msg: string)
    | TransportError(msg: string)
    | ConnectionError(msg: string)          // a subclass of TransportError
    | TimeoutError(msg: string)
    | ConfigurationError(msg: string)
    | Failure(kind: string, msg: string)    // any other exception a collaborator raises
  {
    /** `type(e).__name__` */
    function ClassName(): string {
      match this
      case ValueError(_) => "ValueError"
      case KeyError(_) => "KeyError"
      case RuntimeError(_) => "RuntimeError"
      case TypeError(_) => "TypeError"
      case AttributeError(_) => "AttributeError"
      case NotImplementedError(_) => "NotImplementedError"
      case ValidationError(_) => "ValidationError"
      case ProtocolError(_) => "ProtocolError"
      case ProviderError(_) => "ProviderError"
      case TransportError(_) => "TransportError"
      case ConnectionError(_) => "ConnectionError"
      case TimeoutError(_) => "TimeoutError"
      case ConfigurationError(_) => "ConfigurationError"
      case Failure(k, _) => k
    }

    /** `isinstance(e, TransportError)` */
    predicate IsTransportError() {
      TransportError? || ConnectionError?
    }

    /** `isinstance(e, RuntimeError)`: NotImplementedError derives from RuntimeError in Python. */
    predicate IsRuntimeError() {
      RuntimeError? || NotImplementedError?
    }

    /** `isinstance(e, ValueError)`: pydantic's ValidationError derives from ValueError. */
    predicate IsValueError() {
      ValueError? || ValidationError?
    }
  }

  datatype Result<+T> = Ok(value: T) | Err(error: Error) {
    predicate IsFailure() {
      Err?
    }

    function PropagateFailure<U>(): Result<U>
      requires Err?
    {
      Err(error)
    }

    function Extract(): T
      requires Ok?
    {
      value
    }
  }
}
