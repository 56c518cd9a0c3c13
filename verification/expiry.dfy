/**
  The fetch of one credential (`getState` in src/index.ts): the raw token the
  Token Source returned and what the JWT decoder makes of it.  The decoder itself
  is not modelled; the model only sees its verdict on the token.
 */
module Expiry {
  import opened Wrappers

  /** The `exp` claim: a number of seconds, something that is not a number, or nothing. */
  datatype ExpClaim = Numeric(seconds: int) | NotNumeric | Absent

  /** The decoder's verdict: it threw, it produced something that is not an object, or claims. */
  datatype Decoded = DecodeThrew | NotAnObject | Claims(exp: ExpClaim)

  /** A cached credential and the absolute millisecond at which it expires. */
  datatype Cached = Cached(token: string, expiry: int)

  /** The ways a `getToken` call can fail. */
  datatype Error =
    | Disposed                    // called after `dispose`
    | SourceFailed(reason: string) // the Token Source rejected; propagated as is
    | InvalidToken                // the decoder threw
    | NoNumericExp                // the claims carry no numeric `exp`

  predicate HasNumericExp(d: Decoded) {
    d.Claims? && d.exp.Numeric?
  }

  /**
    What `getState` settles with once the Token Source returned `token`:
    a cached credential exactly when the claims carry a numeric `exp`, with the
    token kept verbatim and the expiry converted from seconds to milliseconds;
    otherwise the fetch fails, and nothing is cached.
   */
  function GetState(token: string, d: Decoded): (r: Result<Cached, Error>)
    ensures r.Success? <==> HasNumericExp(d)
    ensures r.Success? ==> r.value.token == token && r.value.expiry / 1000 == d.exp.seconds
    ensures r.Success? ==> r.value.expiry % 1000 == 0
    ensures d.DecodeThrew? ==> r == Failure(InvalidToken)
    ensures d.NotAnObject? || (d.Claims? && !d.exp.Numeric?) ==> r == Failure(NoNumericExp)
  {
    match d
    case DecodeThrew => Failure(InvalidToken)
    case NotAnObject => Failure(NoNumericExp)
    case Claims(Numeric(seconds)) => Success(Cached(token, seconds * 1000))
    case Claims(_) => Failure(NoNumericExp)
  }
}
