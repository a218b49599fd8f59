/**
 * Session tokens and the `token` cookie shared by signup, signin, the access
 * gate and the report routes. Signing and verifying are not modelled: an
 * issued token is its payload and lifetime, and verifying a presented token
 * string is a function `verify` that yields the payload of a genuine,
 * unexpired token and `None` otherwise.
 */
module Session {
  import opened Wrappers

  /** The payload of a token: `{ id, role }` from signup, `{ id, email, role }` from signin. */
  datatype Claims = Claims(id: nat, email: Option<string>, role: string)

  /** `jwt.sign(claims, secret, { expiresIn })` */
  datatype Token = Token(claims: Claims, expiresInSeconds: nat)

  /** `expiresIn: "7d"` and the signup cookie's `maxAge: 7 * 24 * 60 * 60`. */
  const SevenDaysSeconds: nat := 7 * 24 * 60 * 60

  datatype Cookie = Cookie(
    name: string,
    token: Token,
    httpOnly: bool,
    secure: bool,
    sameSite: string,
    path: string,
    maxAge: Option<nat>)

  /**
   * `response.cookies.set("token", token, { httpOnly: true, secure: production,
   * sameSite: "strict", path: "/", maxAge })`; `maxAge` is absent (a browser
   * session cookie) where the route gives none.
   */
  function SessionCookie(token: Token, production: bool, maxAge: Option<nat>): (c: Cookie)
    ensures c.name == "token" && c.token == token && c.maxAge == maxAge
    ensures c.httpOnly && c.secure == production && c.sameSite == "strict" && c.path == "/"
  {
    Cookie("token", token, true, production, "strict", "/", maxAge)
  }
}
