/**
 * The CORS origin check of the API server: a fixed list of site origins plus
 * the configured client URL, and a callback that lets a request through when
 * it has no origin or its origin is on the list.
 */
module Cors {
  import opened Wrappers

  const FixedOrigins: seq<string> := [
    "http://localhost:3000",
    "http://localhost:5173",
    "https://incubez-talent-stories-4eyw.onrender.com",
    "https://www.incubez.in",
    "https://incubez.in",
    "http://www.incubez.in",
    "http://incubez.in"
  ]

  const CorsError: string := "Not allowed by CORS"

  /** `[...FixedOrigins, process.env.CLIENT_URL].filter(Boolean)` */
  function AllowedOrigins(clientUrl: Option<string>): (r: seq<string>)
    ensures forall i :: 0 <= i < |r| ==> r[i] != ""
    ensures |r| >= |FixedOrigins| && r[..|FixedOrigins|] == FixedOrigins
    ensures clientUrl.Some? && clientUrl.value != "" ==> r == FixedOrigins + [clientUrl.value]
    ensures clientUrl.None? || clientUrl.value == "" ==> r == FixedOrigins
  {
    FixedOrigins + (if clientUrl.Some? && clientUrl.value != "" then [clientUrl.value] else [])
  }

  /** The `origin` callback: `Ok(true)` lets the request through, an error blocks it. */
  function CheckOrigin(allowed: seq<string>, origin: Option<string>): (r: Result<bool, string>)
    ensures r.Ok? <==> origin.None? || origin.value == "" || origin.value in allowed
    ensures r.Ok? ==> r.value
    ensures r.Err? ==> r.error == CorsError
  {
    if origin.None? || origin.value == "" then Ok(true)
    else if origin.value in allowed then Ok(true)
    else Err(CorsError)
  }

  /**
   * With the list the server builds, a request is let through exactly when it
   * has no origin, comes from one of the fixed site origins, or from the
   * configured client URL.
   */
  lemma ServerOriginCheck(clientUrl: Option<string>, origin: Option<string>)
    ensures CheckOrigin(AllowedOrigins(clientUrl), origin).Ok? <==>
      || origin.None? || origin.value == ""
      || origin.value in FixedOrigins
      || (clientUrl.Some? && clientUrl.value != "" && origin == clientUrl)
  {
  }
}
