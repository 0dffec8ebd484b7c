/** The guards of `Openbis.login` and `Openbis.is_token_valid` in
    src/python/PyBis/pybis/pybis.py. Both methods are stubs after their
    guard: the model covers what they do, which is the guard alone. */
module Openbis {
  import opened Wrappers
  import opened Credentials

  /** The exception `login` is documented to raise. */
  datatype LoginError = ValueError(message: string)

  const MissingPairMessage: string := "Cannot log into openBIS without a username and password"

  /** The Python truth value of the guard operand of `login`. The guard
      writes `credentials.has_username_and_password` without calling it, so
      the operand is a bound method object, and every such object is true. */
  predicate GuardOperandIsTrue(c: Credentials) {
    true
  }

  /** `login()` as written: `not <bound method>` is false for every
      credentials object, so the `ValueError` is never raised. */
  function Login(c: Credentials): (r: Outcome<LoginError>)
    ensures r == Pass
  {
    if !GuardOperandIsTrue(c) then Fail(ValueError(MissingPairMessage)) else Pass
  }

  /** The guard refuses nothing: even credentials with neither a token nor
      a username/password pair get past it. */
  lemma LoginAcceptsMissingPair()
    ensures !HasUsernameAndPassword(EmptyCredentials())
    ensures Login(EmptyCredentials()) == Pass
  {
  }

  /** `login()` with the guard as its docstring describes it: the method
      is called, so credentials without a username/password pair raise. */
  function LoginAsIntended(c: Credentials): (r: Outcome<LoginError>)
    ensures r.Fail? <==> !HasUsernameAndPassword(c)
    ensures r.Fail? ==> r.error == ValueError(MissingPairMessage)
  {
    if !HasUsernameAndPassword(c) then Fail(ValueError(MissingPairMessage)) else Pass
  }

  /** `is_token_valid()`: `False` without a token; with a token the stub
      falls off its end and Python returns `None`. It never returns `True`. */
  function IsTokenValid(c: Credentials): (r: Option<bool>)
    ensures !HasToken(c) ==> r == Some(false)
    ensures HasToken(c) ==> r == None
    ensures r != Some(true)
  {
    if !HasToken(c) then Some(false) else None
  }
}
