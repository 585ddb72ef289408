/**
 * The bearer-token gate `authenticateToken` of server/routes.ts. Token
 * signature and expiry checking (`jwt.verify`) is the oracle `verify`: it
 * yields the decoded `{ id, email, role }` payload, or nothing when the
 * token is invalid or expired.
 */
module Auth {
  import opened Wrappers
  import opened Schema
  import opened Text

  /** The token payload attached to the request as `req.user`. */
  datatype Claims = Claims(id: Id, email: string, role: string)

  datatype Gate = Granted(user: Claims) | Denied(status: int, message: string)

  /**
   * `token` is the second space-separated field of `h`: a space-free scheme,
   * one space, the token, then either nothing or further fields.
   */
  ghost predicate IsSecondField(h: string, token: string) {
    exists scheme, rest :: h == scheme + [' '] + token + rest && ' ' !in scheme && AtFieldBoundary(rest)
  }

  /** What follows a field: nothing, or a space before the next field. */
  predicate AtFieldBoundary(rest: string) {
    rest == "" || rest[0] == ' '
  }

  /**
   * `authHeader && authHeader.split(' ')[1]`: the second space-separated
   * field of the `Authorization` header. A missing header, a missing second
   * field and an empty one all count as no token.
   */
  function BearerToken(header: Option<string>): (r: Option<string>)
    ensures header.None? ==> r.None?
    ensures r.Some? ==> r.value != "" && ' ' !in r.value
    ensures r.Some? ==> IsSecondField(header.value, r.value)
  {
    match header
    case None => None
    case Some(h) =>
      var parts := Split(h, ' ');
      if |parts| >= 2 && parts[1] != "" then
        var scheme, token := parts[0], parts[1];
        SplitSecondField(h, ' ');
        var rest := if |parts| == 2 then "" else " " + Join(parts[2..], ' ');
        assert ' ' !in scheme && AtFieldBoundary(rest);
        assert h == scheme + [' '] + token + rest;
        Some(token)
      else None
  }

  /** Splitting `token rest` on spaces puts `token` first. */
  lemma SplitFirstFieldIs(token: string, rest: string)
    requires ' ' !in token && AtFieldBoundary(rest)
    ensures Split(token + rest, ' ')[0] == token
  {
    if rest == "" {
      assert token + rest == token;
      assert IndexOf(token, ' ').None?;
    } else {
      assert token + rest == token + [' '] + rest[1..];
      SplitAfterWord(token, ' ', rest[1..]);
    }
  }

  /** Splitting `scheme token rest` on spaces puts `token` second. */
  lemma SplitSecondFieldIs(scheme: string, token: string, rest: string)
    requires ' ' !in scheme && ' ' !in token && AtFieldBoundary(rest)
    ensures var parts := Split(scheme + [' '] + token + rest, ' '); |parts| >= 2 && parts[1] == token
  {
    assert scheme + [' '] + token + rest == scheme + [' '] + (token + rest);
    SplitAfterWord(scheme, ' ', token + rest);
    SplitFirstFieldIs(token, rest);
  }

  /**
   * The converse of `BearerToken`'s contract: whenever the header's second
   * field is a non-empty token, that token is what is extracted.
   */
  lemma SecondFieldIsToken(h: string, token: string)
    requires token != "" && ' ' !in token && IsSecondField(h, token)
    ensures BearerToken(Some(h)) == Some(token)
  {
    var scheme, rest :| h == scheme + [' '] + token + rest && ' ' !in scheme && AtFieldBoundary(rest);
    SplitSecondFieldIs(scheme, token, rest);
  }

  /** The header a client sends, `Bearer <token>`, yields the token back. */
  lemma BearerRoundTrip(token: string)
    requires token != "" && ' ' !in token
    ensures BearerToken(Some("Bearer " + token)) == Some(token)
  {
    SplitJoin(["Bearer", token], ' ');
    assert Join(["Bearer", token], ' ') == "Bearer " + token;
  }

  /** `authenticateToken`: 401 without a token, 403 when it does not verify, else the decoded caller. */
  function Authenticate(header: Option<string>, verify: string -> Option<Claims>): (r: Gate)
    ensures BearerToken(header).None? ==> r == Denied(401, "Access token required")
    ensures BearerToken(header).Some? && verify(BearerToken(header).value).None? ==> r == Denied(403, "Invalid token")
    ensures r.Granted? <==> BearerToken(header).Some? && verify(BearerToken(header).value).Some?
    ensures r.Granted? ==> verify(BearerToken(header).value) == Some(r.user)
  {
    match BearerToken(header)
    case None => Denied(401, "Access token required")
    case Some(token) =>
      match verify(token)
      case None => Denied(403, "Invalid token")
      case Some(user) => Granted(user)
  }
}
