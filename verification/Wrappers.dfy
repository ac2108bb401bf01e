// Results of operations that raise in the source.
module Wrappers {
  datatype Option<+T> = None | Some(value: T)

  // One constructor for each exception class the modelled code raises.
  datatype Error =
    | ValueError              // ValueError and pydantic's ValidationError
    | TypeError
    | IntegrityError
    | AuthenticationError
    | AuthorizationError
    | TransportValidation
    | ExpiredError
    | NotYetValid
    | SchemaVersion
    | PacketSize
    | TenantMutation
    | PolicyError
    | StepExecution
    | FloatOverflow           // OverflowError
    | DispatchConfiguration
    | DispatchAuthority
    | DispatchSecurity
    | WorkerResponse
    | GateClient              // GateClientError, its subclasses, and httpx transport errors

  datatype Result<+T> = Ok(value: T) | Err(error: Error) {
    predicate IsFailure() {
      Err?
    }

    function PropagateFailure<U>(): Result<U>
      requires Err?
    {
      Err(error)
    }

    function Extract(): T
      requires Ok?
    {
      value
    }
  }

  // A loop of checks that stops at the first one that raises.
  function FirstError(checks: seq<Result<()>>): Result<()> {
    if checks == [] then Ok(())
    else if checks[0].Err? then checks[0]
    else FirstError(checks[1..])
  }

  lemma {:induction false} FirstErrorAt(checks: seq<Result<()>>, n: nat)
    requires n <= |checks| && forall i :: 0 <= i < n ==> checks[i].Ok?
    ensures n == |checks| ==> FirstError(checks) == Ok(())
    ensures n < |checks| && checks[n].Err? ==> FirstError(checks) == checks[n]
  {
    if n > 0 {
      FirstErrorAt(checks[1..], n - 1);
    }
  }

  lemma {:induction false} FirstErrorOk(checks: seq<Result<()>>)
    ensures FirstError(checks).Ok? <==> forall i :: 0 <= i < |checks| ==> checks[i].Ok?
    ensures FirstError(checks).Err? ==> FirstError(checks) in checks
  {
    if checks != [] {
      FirstErrorOk(checks[1..]);
    }
  }

  // `Check(c, e)` is the source's `if not c: raise e`.
  function Check(condition: bool, error: Error): Result<()> {
    if condition then Ok(()) else Err(error)
  }
}
