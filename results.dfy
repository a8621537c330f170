/** Outcomes of the plugin steps: the exceptions they raise become `Err` values. */
module Results {

  datatype Option<T> = None | Some(value: T)

  datatype Error =
    | KeyError(key: string)          // `controller.CONF[key]` on a missing key
    | PackStackError(message: string) // raised by a plugin on a configuration conflict
    | ScriptError(host: string)      // `ScriptRunner(host).execute()` failed

  datatype Result<T> = Ok(value: T) | Err(error: Error) {
    predicate IsFailure() {
      Err?
    }

    function PropagateFailure<U>(): Result<U>
      requires Err?
    {
      Err(error)
    }

    function Extract(): T
      requires Ok?
    {
      value
    }
  }

  /** The outcome of a step whose value is not used: success, or what it raised. */
  function Status<T>(r: Result<T>): Result<()> {
    if r.Ok? then Ok(()) else Err(r.error)
  }
}
