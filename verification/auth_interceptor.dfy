/** The HTTP interceptor: the token goes into the `Authorization` header,
    and a 401 answer to anything but the sign-in request ends the session.
    The interceptor keeps no state, so it is two functions. */
module AuthInterceptor {
  import opened Js

  datatype Request = Request(url: string, headers: map<string, string>)

  datatype HttpError = HttpError(status: int, message: string)

  /** What the interceptor does with a failed request: whether it ends the
      session (`handleTokenExpiry`), and the error it passes on. */
  datatype ErrorOutcome = ErrorOutcome(expireSession: bool, rethrown: HttpError)

  const AuthHeader := "Authorization"
  const SigninPath := "/auth/signin"

  /** The request sent on: with the token as it is (no scheme prefix) in the
      `Authorization` header when there is a token, unchanged otherwise. */
  function WithAuth(req: Request, token: Option<string>): (r: Request)
    ensures r.url == req.url
    ensures Present(token) ==> AuthHeader in r.headers && r.headers[AuthHeader] == token.value
    ensures Present(token) ==> forall h :: h != AuthHeader ==> (h in r.headers <==> h in req.headers)
    ensures Present(token) ==> forall h :: h != AuthHeader && h in req.headers ==> r.headers[h] == req.headers[h]
    ensures !Present(token) ==> r == req
  {
    if Present(token) then req.(headers := req.headers[AuthHeader := token.value]) else req
  }

  /** Attaching the same token twice gives the request attaching it once. */
  lemma WithAuthIdempotent(req: Request, token: Option<string>)
    ensures WithAuth(WithAuth(req, token), token) == WithAuth(req, token)
  {
    if Present(token) {
      var once := WithAuth(req, token);
      assert once.headers[AuthHeader := token.value] == once.headers;
    }
  }

  /** The error path: the session ends exactly on a 401 whose URL does not
      contain the sign-in path; the error is always passed on as it came. */
  function OnError(req: Request, err: HttpError): (r: ErrorOutcome)
    ensures r.expireSession <==> err.status == 401 && !exists i :: OccursAt(req.url, SigninPath, i)
    ensures r.rethrown == err
  {
    var isSigninRequest := Contains(req.url, SigninPath);
    ErrorOutcome(err.status == 401 && !isSigninRequest, err)
  }

  /** The decision does not depend on the header: it is the same for the
      request with the token as for the one without. */
  lemma DecisionIgnoresToken(req: Request, token: Option<string>, err: HttpError)
    ensures OnError(WithAuth(req, token), err) == OnError(req, err)
  {
  }

  /** A failed sign-in never ends the session, whatever its status. */
  lemma SigninNeverExpires(before: string, after: string, headers: map<string, string>, err: HttpError)
    ensures !OnError(Request(before + SigninPath + after, headers), err).expireSession
  {
    var url := before + SigninPath + after;
    assert url[|before|..|before| + |SigninPath|] == SigninPath;
    assert OccursAt(url, SigninPath, |before|);
  }

  /** Any answer other than 401 never ends the session. */
  lemma OnlyUnauthorizedExpires(req: Request, err: HttpError)
    requires err.status != 401
    ensures !OnError(req, err).expireSession
  {
  }

  /** A 401 on the session check `/auth`, which is not the sign-in request,
      ends the session. */
  lemma AuthCheckExpires(headers: map<string, string>, message: string)
    ensures OnError(Request("/auth", headers), HttpError(401, message)).expireSession
  {
    assert forall i :: !OccursAt("/auth", SigninPath, i);
  }
}
