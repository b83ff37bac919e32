/** The bearer-token guards in front of the routes. JWT signing and verification
    are left abstract: `encode` turns a payload into a token string and `decode`
    gives back the payload of a token it accepts (`decode_token` returns `None`
    on every failure). */
module Auth {
  import opened Wrappers
  import opened Text

  /** The JSON values a token payload holds. */
  datatype Json = JStr(str: string) | JInt(num: int) | JOther

  /** A decoded token payload (a JSON object). */
  type Claims = map<string, Json>

  const JWT_EXPIRATION_HOURS := 24
  const SECONDS_PER_HOUR := 3600

  /** The payload `generate_token` signs: the three identity claims and an
      expiry 24 hours after `now`. */
  function GenerateToken(userId: int, email: string, role: string, now: int): Claims {
    map["user_id" := JInt(userId), "email" := JStr(email), "role" := JStr(role),
        "exp" := JInt(now + JWT_EXPIRATION_HOURS * SECONDS_PER_HOUR)]
  }

  /** The payload carries exactly the given identity claims and the expiry
      `now + 24h`. */
  lemma GeneratedClaims(userId: int, email: string, role: string, now: int)
    ensures var c := GenerateToken(userId, email, role, now);
      && c.Keys == {"user_id", "email", "role", "exp"}
      && c["user_id"] == JInt(userId) && c["email"] == JStr(email) && c["role"] == JStr(role)
      && c["exp"] == JInt(now + 86400)
  {
  }

  /** What the guards' `token` variable holds after reading the header: nothing
      (no header, or an empty second field), a format failure (the header has
      no second field, so `split(' ')[1]` raises), or a token. */
  datatype TokenRead = Missing | BadFormat | Found(token: string)

  function ReadToken(header: Option<string>): (r: TokenRead)
    ensures r.Found? ==> r.token != "" && ' ' !in r.token
  {
    if header.None? then Missing
    else
      var parts := Split(header.value, ' ');
      if |parts| < 2 then BadFormat
      else if parts[1] == "" then Missing
      else Found(parts[1])
  }

  /** A guard either calls the handler with the decoded claims or answers
      itself with a status code and an error message. */
  datatype Outcome = Allow(claims: Claims) | Deny(status: int, error: string)

  /** `if not data`: `None`, or an empty JSON object. */
  predicate Falsy(data: Option<Claims>) {
    data.None? || data.value == map[]
  }

  /** `data.get('role') == 'admin'`. */
  predicate HasAdminRole(c: Claims) {
    "role" in c && c["role"] == JStr("admin")
  }

  /** `token_required`. */
  function TokenRequired(header: Option<string>, decode: string -> Option<Claims>): (r: Outcome)
    ensures r.Allow? ==> ReadToken(header).Found? && decode(ReadToken(header).token) == Some(r.claims)
    ensures r.Deny? ==> r.status == 401
    ensures r.Deny? ==> r.error in {"Invalid token format", "Token is missing", "Token is invalid"}
    ensures ReadToken(header).Found? && !Falsy(decode(ReadToken(header).token)) ==> r.Allow?
  {
    match ReadToken(header)
    case BadFormat => Deny(401, "Invalid token format")
    case Missing => Deny(401, "Token is missing")
    case Found(t) =>
      var data := decode(t);
      if Falsy(data) then Deny(401, "Token is invalid") else Allow(data.value)
  }

  /** `admin_required`. */
  function AdminRequired(header: Option<string>, decode: string -> Option<Claims>): (r: Outcome)
    ensures r.Allow? ==> ReadToken(header).Found? && decode(ReadToken(header).token) == Some(r.claims)
    ensures r.Allow? ==> HasAdminRole(r.claims)
    ensures r.Deny? ==> (r.status == 401 <==> !ReadToken(header).Found?)
    ensures r.Deny? && ReadToken(header).Found? ==> r == Deny(403, "Admin access required")
    ensures var t := ReadToken(header);
      t.Found? && !Falsy(decode(t.token)) && HasAdminRole(decode(t.token).value) ==> r.Allow?
  {
    match ReadToken(header)
    case BadFormat => Deny(401, "Invalid token format")
    case Missing => Deny(401, "Token is missing")
    case Found(t) =>
      var data := decode(t);
      if Falsy(data) || !HasAdminRole(data.value) then Deny(403, "Admin access required")
      else Allow(data.value)
  }

  /** A request without an `Authorization` header is refused with 401
      "Token is missing" by both guards. */
  lemma NoHeaderIsMissing(decode: string -> Option<Claims>)
    ensures TokenRequired(None, decode) == Deny(401, "Token is missing")
    ensures AdminRequired(None, decode) == Deny(401, "Token is missing")
  {
  }

  /** A header without a space is refused with 401 "Invalid token format". */
  lemma NoSpaceIsBadFormat(h: string, decode: string -> Option<Claims>)
    requires ' ' !in h
    ensures TokenRequired(Some(h), decode) == Deny(401, "Invalid token format")
    ensures AdminRequired(Some(h), decode) == Deny(401, "Invalid token format")
  {
    SplitWithoutSep(h, ' ');
  }

  /** A header whose second field is empty (it ends in its only space, or has
      two spaces in a row after the first word) is refused with 401
      "Token is missing". */
  lemma EmptySecondFieldIsMissing(scheme: string, rest: string, decode: string -> Option<Claims>)
    requires ' ' !in scheme
    requires rest == "" || rest[0] == ' '
    ensures TokenRequired(Some(scheme + " " + rest), decode) == Deny(401, "Token is missing")
    ensures AdminRequired(Some(scheme + " " + rest), decode) == Deny(401, "Token is missing")
  {
    SplitAtFirst(scheme, rest, ' ');
    assert scheme + " " + rest == scheme + [' '] + rest;
    if rest != [] {
      assert rest == [' '] + rest[1..];
      SplitAtFirst("", rest[1..], ' ');
    }
  }

  /** The token is the second space-separated field of the header: the text
      between the first space and the next one (or the end). */
  lemma TokenIsSecondField(scheme: string, token: string, rest: string)
    requires ' ' !in scheme && ' ' !in token && token != ""
    requires rest == "" || rest[0] == ' '
    ensures ReadToken(Some(scheme + " " + token + rest)) == Found(token)
  {
    assert scheme + " " + token + rest == scheme + [' '] + (token + rest);
    SplitAtFirst(scheme, token + rest, ' ');
    if rest == [] {
      SplitWithoutSep(token, ' ');
      assert token + rest == token;
    } else {
      assert token + rest == token + [' '] + rest[1..];
      SplitAtFirst(token, rest[1..], ' ');
    }
  }

  /** The scheme word is never checked: any first word gives the same outcome. */
  lemma SchemeIgnored(scheme1: string, scheme2: string, rest: string, decode: string -> Option<Claims>)
    requires ' ' !in scheme1 && ' ' !in scheme2
    ensures TokenRequired(Some(scheme1 + " " + rest), decode) == TokenRequired(Some(scheme2 + " " + rest), decode)
    ensures AdminRequired(Some(scheme1 + " " + rest), decode) == AdminRequired(Some(scheme2 + " " + rest), decode)
  {
    assert scheme1 + " " + rest == scheme1 + [' '] + rest;
    assert scheme2 + " " + rest == scheme2 + [' '] + rest;
    SplitAtFirst(scheme1, rest, ' ');
    SplitAtFirst(scheme2, rest, ' ');
  }

  /** When `decode` rejects the token or yields an empty payload, `token_required` answers 401
      "Token is invalid" and `admin_required` 403. */
  lemma UndecodableToken(header: Option<string>, decode: string -> Option<Claims>)
    requires ReadToken(header).Found? && Falsy(decode(ReadToken(header).token))
    ensures TokenRequired(header, decode) == Deny(401, "Token is invalid")
    ensures AdminRequired(header, decode) == Deny(403, "Admin access required")
  {
  }

  /** `admin_required` lets a request through exactly when `token_required`
      does and the claims carry role `admin`; both then pass the same claims. */
  lemma AdminIsTokenPlusRole(header: Option<string>, decode: string -> Option<Claims>)
    ensures AdminRequired(header, decode).Allow? <==>
      TokenRequired(header, decode).Allow? && HasAdminRole(TokenRequired(header, decode).claims)
    ensures AdminRequired(header, decode).Allow? ==> AdminRequired(header, decode) == TokenRequired(header, decode)
    ensures TokenRequired(header, decode).Allow? && !HasAdminRole(TokenRequired(header, decode).claims)
      ==> AdminRequired(header, decode) == Deny(403, "Admin access required")
  {
  }

  /** A token issued by `generate_token` and presented as `Bearer <token>`
      passes `token_required` with its own claims, and passes `admin_required`
      exactly when it was issued for role `admin`. JWTs hold no spaces and are
      never empty; `decode` is assumed to give back what `encode` signed. */
  lemma IssuedTokenAccepted(userId: int, email: string, role: string, now: int,
                            encode: Claims -> string, decode: string -> Option<Claims>)
    requires var c := GenerateToken(userId, email, role, now);
      ' ' !in encode(c) && encode(c) != "" && decode(encode(c)) == Some(c)
    ensures var c := GenerateToken(userId, email, role, now);
      TokenRequired(Some("Bearer " + encode(c)), decode) == Allow(c)
    ensures var c := GenerateToken(userId, email, role, now);
      AdminRequired(Some("Bearer " + encode(c)), decode).Allow? <==> role == "admin"
  {
    var c := GenerateToken(userId, email, role, now);
    TokenIsSecondField("Bearer", encode(c), "");
    assert "Bearer " + encode(c) == "Bearer" + " " + encode(c) + "";
    assert "user_id" in c;
  }
}
