/**
 * Values shared by every module: PHP's `null`-able values, the two kinds of
 * `Throwable` the engine distinguishes, and results that carry one of them.
 */
module PhpCore {

  /** A PHP value that may be `null` (`??` falls through only on `None`). */
  datatype Option<T> = None | Some(value: T)
  {
    /** `$x ?? $default`. */
    function GetOr(default: T): T
    {
      if Some? then value else default
    }
  }

  /**
   * What a PHP call can throw.  `RuntimeError` is a `\RuntimeException`
   * raised by the plugin itself; `FatalError` is any other `\Throwable`
   * (a `TypeError` under `strict_types`, a call to an undefined method).
   */
  datatype Throwable = RuntimeError(message: string) | FatalError(message: string)
  {
    predicate IsRuntime()
    {
      RuntimeError?
    }
  }

  /** Either a returned value or a thrown exception. */
  datatype Result<T> = Ok(value: T) | Throw(error: Throwable)
}
