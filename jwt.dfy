/** The claims an access token carries, as the server writes them and as the
    client reads them back. Signing, base64 and JSON are not modelled: the
    client's `JSON.parse(atob(segment))` is a partial function `decode` that
    the callers take as a parameter. */
module Jwt {
  import opened Wrappers
  import Text

  /** The `subscription` claim. `endDate` is an abstract timestamp; the
      ISO-8601 rendering of it is not modelled. */
  datatype SubscriptionClaim = SubscriptionClaim(
    planId: nat,
    planName: string,
    status: string,
    features: seq<string>,
    endDate: Option<int>)

  /** The custom claims of an access token. Every field is optional because the
      client reads whatever the payload holds; an absent field reads as
      `undefined`. The standard claims (`exp`, `jti`, `user_id`, ...) are not
      modelled. */
  datatype Claims = Claims(
    username: Option<string>,
    isSuperuser: Option<bool>,
    isStaff: Option<bool>,
    role: Option<string>,
    tenantName: Option<string>,
    subscription: Option<SubscriptionClaim>)

  /** The claims before any custom one is written. */
  const NoClaims := Claims(None, None, None, None, None, None)

  /** What reading a token's payload gives: a token without exactly three
      dot-separated segments, a middle segment that `decode` rejects (the
      browser would throw), or the decoded claims. */
  datatype Payload = Malformed | Unreadable | Decoded(claims: Claims)

  /** `token.split('.')`, and when that gives three parts,
      `JSON.parse(atob(parts[1]))`. */
  function ReadPayload(token: string, decode: string -> Option<Claims>): (r: Payload)
    ensures r.Malformed? <==> Text.Occurrences(token, '.') != 2
    ensures !r.Malformed? ==> |Text.Split(token, '.')| == 3
    ensures !r.Malformed? ==> (r.Decoded? <==> decode(Text.Split(token, '.')[1]).Some?)
    ensures r.Decoded? ==> decode(Text.Split(token, '.')[1]) == Some(r.claims)
  {
    var parts := Text.Split(token, '.');
    if |parts| != 3 then Malformed
    else
      match decode(parts[1])
      case None => Unreadable
      case Some(c) => Decoded(c)
  }

  /** The login page's test: `payload.is_superuser || payload.is_staff`. */
  predicate FlagsSayAdmin(c: Claims)
  {
    c.isSuperuser == Some(true) || c.isStaff == Some(true)
  }

  /** The router's and the home page's test: `payload.role === 'admin'`. */
  predicate RoleSaysAdmin(c: Claims)
  {
    c.role == Some("admin")
  }
}
