/**
 * The main page route (routers/main_page_router/router.py): the page is
 * rendered for a bearer cookie, with whatever the token validator returns as
 * the `username`; every exception inside the handler, its own 401 included,
 * is turned into a 500.
 */
module MainPageRouter {
  import opened Wrappers
  import opened Text
  import opened Services

  /** What `index` answers: the main page with its `username` value, or an HTTP error. */
  datatype Page = MainPage(username: Validation) | Failed(error: HttpError)

  /** `HTTPException(status_code=500)`, whose detail defaults to the status phrase. */
  const InternalServerError: HttpError := HttpError(500, "Internal Server Error", false)

  /** `request.cookies.get("access_token", "")`. */
  function CookieOrEmpty(cookie: Option<string>): (r: string)
    ensures r == "" <==> cookie.None? || cookie == Some("")
    ensures cookie.Some? ==> r == cookie.value
  {
    if cookie.Some? then cookie.value else ""
  }

  /** The `try` block of `index`: the validator's answer for a bearer cookie, otherwise a 401. */
  function IndexTry(cookie: string, decode: Decoder): (r: Result<Validation, Raised>)
    ensures r.Err? <==> !BearerCookie(cookie)
    ensures r.Err? ==> r.error == Http(NotAuthenticated)
    ensures r.Ok? ==> r.value == ValidationTokenFromCookie(Some(StripBearer(cookie)), decode)
  {
    if !BearerCookie(cookie) then Err(Http(NotAuthenticated))
    else Ok(ValidationTokenFromCookie(Some(StripBearer(cookie)), decode))
  }

  /** `index`: the catch-all handler around `IndexTry`. */
  function Index(cookie: Option<string>, decode: Decoder): (page: Page)
    ensures page.Failed? <==> !BearerCookie(CookieOrEmpty(cookie))
    ensures page.Failed? ==> page.error == InternalServerError
    ensures page.MainPage? ==>
              cookie.Some? &&
              page.username == ValidationTokenFromCookie(Some(StripBearer(cookie.value)), decode)
  {
    match IndexTry(CookieOrEmpty(cookie), decode)
    case Ok(username) => MainPage(username)
    case Err(_) => Failed(InternalServerError)
  }

  /** A missing or empty cookie ends in 500, not in the 401 raised for it: the catch-all swallows it. */
  lemma MissingCookieIs500(decode: Decoder)
    ensures IndexTry("", decode) == Err(Http(NotAuthenticated))
    ensures Index(None, decode) == Failed(InternalServerError)
    ensures Index(Some(""), decode) == Failed(InternalServerError)
  {
  }

  /** `index` never answers 401: every failure of its `try` block becomes a 500. */
  lemma NeverUnauthorized(cookie: Option<string>, decode: Decoder)
    ensures IndexTry(CookieOrEmpty(cookie), decode).Err? <==> Index(cookie, decode) == Failed(InternalServerError)
    ensures Index(cookie, decode).Failed? ==> Index(cookie, decode).error.status == 500
  {
  }

  /**
   * A bearer cookie whose token fails validation still renders the main page:
   * the redirect the validator returns is handed to the template as the username.
   */
  lemma InvalidTokenStillRenders(token: string, decode: Decoder)
    requires token != "" && !decode(token).Claims?
    ensures Index(Some(Bearer + token), decode) == MainPage(Redirect(InvalidTokenUrl))
  {
    assert BearerCookie(Bearer + token) by {
      assert (Bearer + token)[..|Bearer|] == Bearer;
    }
    assert StripBearer(Bearer + token) == token;
  }
}
