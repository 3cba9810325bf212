/** The claims a signed identity token carries. Signing and signature checking
    are outside the model; a token is represented by its claims. */
module Tokens {
  import opened Wrappers

  /** A user's identifier in the user store. */
  type UserId = nat

  /** Seconds in the `'1d'` lifetime given to login tokens. */
  const OneDay: nat := 86400

  /** The payload of `jwt.sign({ id }, secret, options)`: the user id and the
      lifetime in seconds, `None` when no `expiresIn` option was given (the
      token then carries no `exp` claim, section 4.1.4 of RFC 7519). */
  datatype Token = Token(id: UserId, expiresIn: Option<nat>)
}
