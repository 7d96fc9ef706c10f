/**
 * The HTTP application's two decisions that do not depend on the routes:
 * the catch-all `GET *` handler that tells API paths from single-page-app
 * paths, and the final error handler that maps an error to a status code.
 */
module App {
  import opened Strings

  /** What the server answers: a JSON error body with a status, or a file of the built front end. */
  datatype Reply = Json(status: int, error: string) | File(name: string)

  /** Errors reaching the final handler: the application's own `AppError` or anything else. */
  datatype Error = AppError(message: string, statusCode: int) | OtherError(message: string)

  /** The path prefixes the catch-all treats as API routes, in the order it tests them. */
  const ApiPrefixes: seq<string> := ["/api", "/auth", "/public", "/contacts", "/messages", "/tickets",
                                     "/whatsapp", "/queues", "/users", "/settings", "/quickanswers"]

  /** The path test of the catch-all: raw `startsWith` on each prefix, so `/publicity` counts too. */
  predicate IsApiPath(path: string) {
    StartsWith(path, "/api") ||
    StartsWith(path, "/auth") ||
    StartsWith(path, "/public") ||
    StartsWith(path, "/contacts") ||
    StartsWith(path, "/messages") ||
    StartsWith(path, "/tickets") ||
    StartsWith(path, "/whatsapp") ||
    StartsWith(path, "/queues") ||
    StartsWith(path, "/users") ||
    StartsWith(path, "/settings") ||
    StartsWith(path, "/quickanswers")
  }

  /** `app.get('*')`: 404 with `{error: "Not found"}` under an API prefix, `index.html` otherwise. */
  function CatchAll(path: string): (r: Reply)
    ensures r.Json? <==> exists i | 0 <= i < |ApiPrefixes| :: StartsWith(path, ApiPrefixes[i])
    ensures r.Json? ==> r.status == 404 && r.error == "Not found"
    ensures r.File? ==> r.name == "index.html"
  {
    ListedPrefixes(path);
    if IsApiPath(path) then Json(404, "Not found") else File("index.html")
  }

  /** The eleven tests of the catch-all are exactly the prefixes of `ApiPrefixes`. */
  lemma ListedPrefixes(path: string)
    ensures IsApiPath(path) <==> exists i | 0 <= i < |ApiPrefixes| :: StartsWith(path, ApiPrefixes[i])
  {
    forall i | 0 <= i < |ApiPrefixes| && StartsWith(path, ApiPrefixes[i])
      ensures IsApiPath(path)
    {
      assert i == 0 || i == 1 || i == 2 || i == 3 || i == 4 || i == 5 || i == 6 || i == 7 || i == 8 || i == 9 || i == 10;
    }
    if IsApiPath(path) {
      var k :=
        if StartsWith(path, "/api") then 0
        else if StartsWith(path, "/auth") then 1
        else if StartsWith(path, "/public") then 2
        else if StartsWith(path, "/contacts") then 3
        else if StartsWith(path, "/messages") then 4
        else if StartsWith(path, "/tickets") then 5
        else if StartsWith(path, "/whatsapp") then 6
        else if StartsWith(path, "/queues") then 7
        else if StartsWith(path, "/users") then 8
        else if StartsWith(path, "/settings") then 9
        else 10;
      assert StartsWith(path, ApiPrefixes[k]);
    }
  }

  /** The final error handler: an `AppError` keeps its status and message, anything else is a bare 500. */
  function ErrorReply(err: Error): (r: Reply)
    ensures r.Json?
    ensures err.AppError? ==> r.status == err.statusCode && r.error == err.message
    ensures err.OtherError? ==> r.status == 500 && r.error == "Internal server error"
  {
    match err
    case AppError(message, statusCode) => Json(statusCode, message)
    case OtherError(_) => Json(500, "Internal server error")
  }

  /** Classification is by raw prefix: extending an API path keeps it an API path. */
  lemma {:induction false} ApiPathExtends(path: string, more: string)
    requires IsApiPath(path)
    ensures IsApiPath(path + more)
  {
    ListedPrefixes(path);
    ListedPrefixes(path + more);
    var i :| 0 <= i < |ApiPrefixes| && StartsWith(path, ApiPrefixes[i]);
    var p := ApiPrefixes[i];
    assert (path + more)[..|p|] == path[..|p|];
    assert StartsWith(path + more, p);
  }

  /** Paths that merely begin like a prefix are API paths as well; the root and app paths are not. */
  lemma RawPrefixExamples()
    ensures CatchAll("/publicity") == Json(404, "Not found")
    ensures CatchAll("/users2") == Json(404, "Not found")
    ensures CatchAll("/") == File("index.html")
    ensures CatchAll("/dashboard") == File("index.html")
  {
    assert StartsWith("/publicity", "/public");
    assert StartsWith("/users2", "/users");
    OnlyApiInitials("/dashboard");
  }

  /** A path whose second character starts none of the prefixes is a front-end path. */
  lemma OnlyApiInitials(path: string)
    requires |path| >= 2 && path[1] !in {'a', 'p', 'c', 'm', 't', 'w', 'q', 'u', 's'}
    ensures CatchAll(path) == File("index.html")
  {
    ListedPrefixes(path);
    forall i | 0 <= i < |ApiPrefixes|
      ensures !StartsWith(path, ApiPrefixes[i])
    {
      assert i == 0 || i == 1 || i == 2 || i == 3 || i == 4 || i == 5 || i == 6 || i == 7 || i == 8 || i == 9 || i == 10;
    }
  }

  /** The message of an error that is not an `AppError` never reaches the client. */
  lemma InternalErrorsAreOpaque(m1: string, m2: string)
    ensures ErrorReply(OtherError(m1)) == ErrorReply(OtherError(m2))
  {
  }
}
