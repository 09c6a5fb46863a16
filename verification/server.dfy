/** The application shell (backend/server.js): the CORS origin check and the
    last error-handling middleware, which every error passed down the
    middleware chain reaches. */
module Server {
  import opened Wrappers
  import UploadMiddleware

  /** `allowedOrigins`, exactly as listed (the Netlify entry ends in `/`). */
  const AllowedOrigins: seq<string> := [
    "http://localhost:5173",
    "http://localhost:3000",
    "https://eloquent-beijinho-b38ff5.netlify.app/"
  ]

  const CorsRejection: string := "Not allowed by CORS"

  datatype CorsDecision = Allow | Reject(message: string)

  /** `corsOptions.origin`: a request without an `Origin` (or with an empty
      one) is allowed; otherwise the origin must equal an entry of the list,
      unless `NODE_ENV` is `development`, where every origin is allowed. */
  function CorsOrigin(origin: Option<string>, nodeEnv: Option<string>): (d: CorsDecision)
    ensures d.Reject? ==> d.message == CorsRejection
    ensures d == Allow <==> origin.None? || origin.value == "" || origin.value in AllowedOrigins || nodeEnv == Some("development")
  {
    match origin
    case None => Allow
    case Some(o) =>
      if o == "" then Allow
      else if o in AllowedOrigins || nodeEnv == Some("development") then Allow
      else Reject(CorsRejection)
  }

  /** The JSON body of an error response. */
  datatype ErrorReply = ErrorReply(status: int, success: bool, message: string, error: Option<string>)

  /** The error-handling middleware: always 500 and `success: false`; the
      error's own message is included only when `NODE_ENV` is `development`. */
  function HandleError(errorMessage: string, nodeEnv: Option<string>): (r: ErrorReply)
    ensures r.status == 500 && !r.success && r.message == "Something went wrong!"
    ensures r.error.Some? <==> nodeEnv == Some("development")
    ensures r.error.Some? ==> r.error.value == errorMessage
  {
    ErrorReply(500, false, "Something went wrong!",
      if nodeEnv == Some("development") then Some(errorMessage) else None)
  }

  /** The error the upload middleware passes on for a refused file part:
      the file filter's own message, or the size limit's `File too large`. */
  function UploadError(v: UploadMiddleware.Verdict): (message: Option<string>)
    ensures message.None? <==> v == UploadMiddleware.Accepted
  {
    match v
    case Accepted => None
    case NotAnImage => Some("Only image files are allowed")
    case TooLarge => Some("File too large")
  }

  /** A refused upload does not reach the product handlers: it ends in the
      error handler with status 500, and its reason is shown only in
      development. */
  lemma RefusedUploadIsServerError(f: UploadMiddleware.FilePart, nodeEnv: Option<string>)
    requires UploadMiddleware.Check(f) != UploadMiddleware.Accepted
    ensures UploadError(UploadMiddleware.Check(f)).Some?
    ensures HandleError(UploadError(UploadMiddleware.Check(f)).value, nodeEnv).status == 500
  {
  }

  /** Matching is exact: the deployed site without the trailing `/` is
      refused outside development, while the listed spelling is allowed. */
  lemma NetlifyWithoutSlashRefused(nodeEnv: Option<string>)
    requires nodeEnv != Some("development")
    ensures CorsOrigin(Some("https://eloquent-beijinho-b38ff5.netlify.app"), nodeEnv) == Reject(CorsRejection)
    ensures CorsOrigin(Some("https://eloquent-beijinho-b38ff5.netlify.app/"), nodeEnv) == Allow
  {
    var o := "https://eloquent-beijinho-b38ff5.netlify.app";
    assert o != AllowedOrigins[0] by { assert |o| != |AllowedOrigins[0]|; }
    assert o != AllowedOrigins[1] by { assert |o| != |AllowedOrigins[1]|; }
    assert o != AllowedOrigins[2] by { assert |o| != |AllowedOrigins[2]|; }
  }

  /** Outside development, exactly the three listed origins (and requests
      without an origin) are allowed. */
  lemma ProductionAllowList(o: string, nodeEnv: Option<string>)
    requires nodeEnv != Some("development") && o != ""
    ensures CorsOrigin(Some(o), nodeEnv) == Allow <==> (o == AllowedOrigins[0] || o == AllowedOrigins[1] || o == AllowedOrigins[2])
  {
  }
}
