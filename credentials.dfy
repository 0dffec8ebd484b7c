/** The `OpenbisCredentials` value object. The class appears twice in the
    repository, in src/python/pybis/pybis.py and in
    src/python/PyBis/pybis/pybis.py, with the same fields and members; this
    module models both. */
module Credentials {
  import opened Wrappers

  /** A connection is authenticated by a token, by a (username, password)
      pair, or by neither; the two fields are independent and are set once,
      by the constructor. */
  datatype Credentials = Credentials(token: Option<string>, unameAndPass: Option<(string, string)>)

  /** `OpenbisCredentials()`: both constructor arguments take their default `None`. */
  function EmptyCredentials(): (c: Credentials)
    ensures !HasToken(c) && !HasUsernameAndPassword(c)
  {
    Credentials(None, None)
  }

  /** `has_token()` */
  predicate HasToken(c: Credentials) {
    c.token != None
  }

  /** `has_username_and_password()` */
  predicate HasUsernameAndPassword(c: Credentials) {
    c.unameAndPass != None
  }

  /** The `username` property: the first component of the pair. Python
      raises a TypeError when the pair is `None`; callers are expected to
      check `has_username_and_password()` first. */
  function Username(c: Credentials): string
    requires HasUsernameAndPassword(c)
  {
    c.unameAndPass.value.0
  }

  /** The `password` property: the second component of the pair. */
  function Password(c: Credentials): string
    requires HasUsernameAndPassword(c)
  {
    c.unameAndPass.value.1
  }

  /** The constructor stores each argument unchanged, and each predicate
      looks at its own field only: `has_token` does not depend on the pair
      and `has_username_and_password` does not depend on the token. */
  lemma ConstructorKeepsFields(token: Option<string>, pair: Option<(string, string)>)
    ensures var c := Credentials(token, pair);
      && c.token == token && c.unameAndPass == pair
      && (HasToken(c) <==> token != None)
      && (HasUsernameAndPassword(c) <==> pair != None)
  {
  }

  /** The two properties give back what was passed to the constructor, in
      the order (username, password). */
  lemma AccessorsRoundTrip(token: Option<string>, username: string, password: string)
    ensures var c := Credentials(token, Some((username, password)));
      && HasUsernameAndPassword(c)
      && Username(c) == username && Password(c) == password
  {
  }
}
