/** Failure-compatible wrappers shared by the report modules. */
module Results {

  datatype Option<+T> = None | Some(value: T)

  /** The errors the report generation can raise; any of them aborts the whole file. */
  datatype Error =
    | UnknownRiskClass(riskClass: string)     // KeyError in the ARL dictionaries
    | MissingSalaryRules(leaveTypeId: int)    // ValidationError for a leave type without salary rules
    | ExpectedSingleton(code: string)         // a field read on a recordset of several lines
    | DivisionByZero                          // pro-rating over a leave type with zero days in total

  datatype Result<+T> = Ok(value: T) | Err(error: Error) {
    predicate IsFailure() { Err? }

    function PropagateFailure<U>(): Result<U>
      requires Err?
    {
      Err(error)
    }

    function Extract(): T
      requires Ok?
    {
      value
    }
  }
}
