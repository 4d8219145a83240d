/**
 * Token handling shared by the routers (routers/services.py): pulling the
 * bearer token out of a WebSocket `cookie` header, and classifying what the
 * JWT library says about a token. JWT decoding itself is a parameter: a
 * `Decoder` maps a token to the claims it carries, or to the kind of error
 * the library raises for it.
 */
module Services {
  import opened Wrappers
  import opened Text

  /** An `HTTPException`: status code, detail, and whether it carries `WWW-Authenticate: Bearer`. */
  datatype HttpError = HttpError(status: nat, detail: string, bearerChallenge: bool)

  /** An exception that escapes a handler. */
  datatype Raised =
    | Http(error: HttpError)
    | IndexError      // `split("=")[1]` on text without `=`
    | AttributeError  // `.username` read from `None`

  const TokenNotFound: HttpError := HttpError(400, "Token not found", false)
  const InvalidTokenFormat: HttpError := HttpError(400, "Invalid token format", false)
  const CouldNotValidate: HttpError := HttpError(401, "Could not validate credentials", true)
  const TokenExpired: HttpError := HttpError(401, "Token expired", false)
  /** The 401 both page routes raise for a missing or non-bearer `access_token` cookie. */
  const NotAuthenticated: HttpError := HttpError(401, "Not authenticated", false)

  /**
   * The candidate token of a cookie header: `value.split("=")[1].replace('"', "")`,
   * or `None` where indexing the split raises `IndexError`.
   */
  function CookieCandidate(cookie: string): (r: Option<string>)
    ensures r.None? <==> '=' !in cookie
    ensures r.Some? ==> '"' !in r.value && '=' !in r.value
  {
    var parts := Split(cookie, '=');
    if |parts| < 2 then None
    else
      var r := Remove(parts[1], '"');
      assert multiset(r)['='] == multiset(parts[1])['='] == 0;
      Some(r)
  }

  /** The candidate is the text between the first and the second `=`, every `"` deleted. */
  lemma CookieCandidateBetween(cookie: string)
    requires '=' in cookie
    ensures CookieCandidate(cookie) == Some(Remove(Before(After(cookie, '='), '='), '"'))
  {
    SplitSecond(cookie, '=');
  }

  /** `get_token_from_cookie_ws`, given the `cookie` header if there is one. */
  function GetTokenFromCookieWs(header: Option<string>): (r: Result<string, Raised>)
    ensures r == Err(Http(TokenNotFound)) <==> header.None? || header == Some("")
    ensures r == Err(IndexError) <==> header.Some? && header.value != "" && '=' !in header.value
    ensures r == Err(Http(InvalidTokenFormat)) <==>
              header.Some? && CookieCandidate(header.value).Some? &&
              !StartsWith(CookieCandidate(header.value).value, Bearer)
    ensures r.Ok? <==>
              header.Some? && CookieCandidate(header.value).Some? &&
              StartsWith(CookieCandidate(header.value).value, Bearer)
    ensures r.Ok? ==> header.Some? && CookieCandidate(header.value) == Some(Bearer + r.value)
    ensures r.Ok? ==> '"' !in r.value && '=' !in r.value
  {
    match header
    case None => Err(Http(TokenNotFound))
    case Some(cookie) =>
      if cookie == "" then Err(Http(TokenNotFound))
      else
        match CookieCandidate(cookie)
        case None => Err(IndexError)
        case Some(token) =>
          if StartsWith(token, Bearer) then
            assert token == Bearer + token[|Bearer|..];
            Ok(token[|Bearer|..])
          else Err(Http(InvalidTokenFormat))
  }

  /** A candidate made of the `Bearer ` prefix and a token lets that token through. */
  lemma AcceptedCandidate(cookie: string, token: string)
    requires CookieCandidate(cookie) == Some(Bearer + token)
    ensures GetTokenFromCookieWs(Some(cookie)) == Ok(token)
  {
    assert StartsWith(Bearer + token, Bearer);
    assert (Bearer + token)[|Bearer|..] == token;
  }

  /** The candidate of `<name>="<m>"` is `m` when the name and `m` hold no `=` and `m` no `"`. */
  lemma QuotedCandidate(name: string, m: string)
    requires '=' !in name && '=' !in m && '"' !in m
    ensures CookieCandidate(name + "=\"" + m + "\"") == Some(m)
  {
    var quoted := "\"" + m + "\"";
    var cookie := name + "=\"" + m + "\"";
    assert cookie == name + ['='] + quoted;
    BeforeAfterAt(name, quoted, '=');
    assert '=' !in quoted by {
      assert quoted == ['"'] + m + ['"'];
    }
    assert Before(quoted, '=') == quoted;
    Unquote(m);
    CookieCandidateBetween(cookie);
  }

  /**
   * The header the sign-in route makes the browser send, `<name>="Bearer <t>"`,
   * yields exactly `t` whenever the cookie name and `t` hold no `=` and `t` no `"`.
   */
  lemma CookieRoundTrip(name: string, t: string)
    requires '=' !in name && '=' !in t && '"' !in t
    ensures GetTokenFromCookieWs(Some(name + "=\"" + Bearer + t + "\"")) == Ok(t)
  {
    assert '=' !in Bearer + t && '"' !in Bearer + t;
    QuotedCandidate(name, Bearer + t);
    assert name + "=\"" + Bearer + t + "\"" == name + "=\"" + (Bearer + t) + "\"";
    AcceptedCandidate(name + "=\"" + Bearer + t + "\"", t);
  }

  /** Deleting the quotes around `"<m>"` leaves `m` when `m` holds none. */
  lemma Unquote(m: string)
    requires '"' !in m
    ensures Remove("\"" + m + "\"", '"') == m
  {
    var q: string := "\"";
    assert q + m + q == q + (m + q);
    RemoveConcat(q, m + q, '"');
    RemoveConcat(m, q, '"');
  }

  /**
   * The cookie the sign-in route sets, `access_token` with value `Bearer <token>`,
   * is read back as the same token when it is the only cookie in the header.
   */
  lemma AccessTokenRoundTrip(t: string)
    requires '=' !in t && '"' !in t
    ensures GetTokenFromCookieWs(Some("access_token=\"Bearer " + t + "\"")) == Ok(t)
  {
    CookieRoundTrip("access_token", t);
    assert "access_token=\"Bearer " + t + "\"" == "access_token" + "=\"" + Bearer + t + "\"";
  }

  /** The candidate of `<a>=<b>=<rest>` is `b` without quotes, when `a` and `b` hold no `=`. */
  lemma SecondPiece(a: string, b: string, rest: string)
    requires '=' !in a && '=' !in b
    ensures CookieCandidate(a + "=" + b + "=" + rest) == Some(Remove(b, '"'))
  {
    var cookie := a + "=" + b + "=" + rest;
    assert cookie == a + ['='] + (b + ['='] + rest);
    BeforeAfterAt(a, b + ['='] + rest, '=');
    BeforeAfterAt(b, rest, '=');
    CookieCandidateBetween(cookie);
  }

  /**
   * A header carrying another cookie before `access_token` is refused: the text
   * between the first two `=` is the other cookie's value and the next name.
   */
  lemma AccessTokenNotFirst(t: string)
    ensures GetTokenFromCookieWs(Some("a" + "=" + "1; access_token" + "=" + ("\"" + Bearer + t + "\"")))
            == Err(Http(InvalidTokenFormat))
  {
    var value: string := "1; access_token";
    assert '=' !in value && '"' !in value;
    SecondPiece("a", value, "\"" + Bearer + t + "\"");
    assert !StartsWith(value, Bearer) by {
      assert value[0] != Bearer[0];
    }
  }

  /**
   * A header carrying another cookie after `access_token` lets the token through
   * with the separator and the next cookie's name attached.
   */
  lemma AccessTokenNotLast(t: string)
    requires '=' !in t && '"' !in t
    ensures GetTokenFromCookieWs(Some("access_token" + "=" + ("\"" + Bearer + t + "\"; b") + "=" + "2"))
            == Ok(t + "; b")
  {
    var middle := "\"" + Bearer + t + "\"; b";
    UnquoteBeforeNext(Bearer + t);
    assert '=' !in middle by {
      assert middle == ['"'] + (Bearer + t) + ['"', ';', ' ', 'b'];
    }
    SecondPiece("access_token", middle, "2");
    assert Remove(middle, '"') == Bearer + (t + "; b");
    AcceptedCandidate("access_token" + "=" + middle + "=" + "2", t + "; b");
  }

  /** Deleting the quotes of `"<m>"; b` leaves `m; b` when `m` holds none. */
  lemma UnquoteBeforeNext(m: string)
    requires '"' !in m
    ensures Remove("\"" + m + "\"; b", '"') == m + "; b"
  {
    var q: string := "\"";
    var tail: string := "\"; b";
    assert "\"" + m + "\"; b" == q + m + tail;
    RemoveConcat(q + m, tail, '"');
    RemoveConcat(q, m, '"');
    assert Remove(tail, '"') == "; b";
  }

  /** What `jwt.decode` does with a token: the claims it carries, or the error it raises. */
  datatype DecodeOutcome =
    | Claims(sub: Option<string>)  // the payload's `sub` claim, if present
    | Expired                      // `ExpiredSignatureError`
    | Invalid                      // any other `PyJWTError`

  type Decoder = string -> DecodeOutcome

  /** `payload.get("sub")` when decoding succeeded and the claim is truthy (present and non-empty). */
  function Subject(outcome: DecodeOutcome): (r: Option<string>)
    ensures r.Some? <==> outcome.Claims? && outcome.sub.Some? && outcome.sub.value != ""
    ensures r.Some? ==> outcome.sub == r
  {
    if outcome.Claims? && outcome.sub.Some? && outcome.sub.value != "" then outcome.sub else None
  }

  /** What `validation_token_from_cookie` returns: a username or a redirect. */
  datatype Validation = Username(name: string) | Redirect(url: string)

  const MissingTokenUrl: string := "/signin?error=Token+is+missing"
  const InvalidTokenUrl: string := "/signin?error=Invalid+token"
  const InvalidCredentialsUrl: string := "/signin?error=Invalid+credentials"

  /** `validation_token_from_cookie`: a non-empty `sub` claim, or a redirect to the sign-in page. */
  function ValidationTokenFromCookie(token: Option<string>, decode: Decoder): (v: Validation)
    ensures token.None? || token == Some("") ==> v == Redirect(MissingTokenUrl)
    ensures token.Some? && token.value != "" && !decode(token.value).Claims? ==>
              v == Redirect(InvalidTokenUrl)
    ensures token.Some? && token.value != "" && decode(token.value).Claims? ==>
              (Subject(decode(token.value)).None? ==> v == Redirect(InvalidCredentialsUrl))
    ensures v.Username? <==> token.Some? && token.value != "" && Subject(decode(token.value)).Some?
    ensures v.Username? ==> v.name != "" && decode(token.value) == Claims(Some(v.name))
    ensures v.Redirect? ==> v.url in {MissingTokenUrl, InvalidTokenUrl, InvalidCredentialsUrl}
  {
    if token.None? || token.value == "" then Redirect(MissingTokenUrl)
    else
      match decode(token.value)
      case Claims(_) =>
        (match Subject(decode(token.value))
         case None => Redirect(InvalidCredentialsUrl)
         case Some(name) => Username(name))
      case Expired | Invalid => Redirect(InvalidTokenUrl)
  }

  /** A row of the user table. */
  datatype User = User(username: string, hashedPassword: string)

  /** The user table keyed by the unique `username` column, as `get_user(username=…)` queries it. */
  ghost predicate KeyedByName(users: map<string, User>) {
    forall name :: name in users ==> users[name].username == name
  }

  /** `get_current_user`: the stored user named by the token's `sub` claim, or a 401. */
  function GetCurrentUser(token: string, decode: Decoder, users: map<string, User>): (r: Result<User, HttpError>)
    ensures r == Err(TokenExpired) <==> decode(token).Expired?
    ensures r.Err? && !decode(token).Expired? ==> r.error == CouldNotValidate
    ensures r.Ok? <==> Subject(decode(token)).Some? && Subject(decode(token)).value in users
    ensures r.Ok? ==> r.value == users[decode(token).sub.value]
    ensures r.Ok? && KeyedByName(users) ==> decode(token) == Claims(Some(r.value.username))
  {
    match decode(token)
    case Expired => Err(TokenExpired)
    case Invalid => Err(CouldNotValidate)
    case Claims(_) =>
      match Subject(decode(token))
      case None => Err(CouldNotValidate)
      case Some(name) =>
        if name in users then Ok(users[name]) else Err(CouldNotValidate)
  }
}
