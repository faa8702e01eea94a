/** The `onRequest` middleware of src/middleware.ts: preview deployments are kept out of
    search indexes with an `X-Robots-Tag` header on every response. */
module Middleware {
  import opened Js

  /** The build settings the middleware reads: `CF_PAGES_BRANCH` (absent when the build is
      not on Cloudflare Pages) and `MODE`. */
  datatype BuildEnv = BuildEnv(branch: Option<string>, mode: string)

  const RobotsHeader: string := "X-Robots-Tag"
  const NoIndex: string := "noindex, nofollow"
  const IndexAll: string := "all"

  /** `isPreview`: the branch is set and non-empty and names neither production branch,
      or the build mode is not `production`. */
  predicate IsPreview(env: BuildEnv)
  {
    (env.branch.Some? && env.branch.value != "" && env.branch.value != "main" && env.branch.value != "production")
    || env.mode != "production"
  }

  /** The header value the middleware chooses. */
  function RobotsValue(env: BuildEnv): (r: string)
    ensures r == NoIndex <==> IsPreview(env)
    ensures r == IndexAll <==> !IsPreview(env)
  {
    if IsPreview(env) then NoIndex else IndexAll
  }

  /** Only a production-mode build of `main`, of `production`, or outside Pages may be indexed. */
  lemma IndexedExactlyInProduction(env: BuildEnv)
    ensures RobotsValue(env) == IndexAll <==>
      env.mode == "production" &&
      (env.branch.None? || env.branch.value in {"", "main", "production"})
  {
  }

  /** The response `next()` produces; only its headers are observed. */
  class Response {
    var headers: map<string, string>

    constructor (headers: map<string, string>)
      ensures this.headers == headers
    {
      this.headers := headers;
    }

    /** `headers.set(name, value)` */
    method SetHeader(name: string, value: string)
      modifies this
      ensures headers == old(headers)[name := value]
    {
      headers := headers[name := value];
    }
  }

  /** `onRequest`: `response` is what `next()` returned; it gets the header and is itself
      returned, every other header kept. */
  method OnRequest(env: BuildEnv, response: Response) returns (r: Response)
    modifies response
    ensures r == response
    ensures r.headers == old(response.headers)[RobotsHeader := RobotsValue(env)]
  {
    var isPreview := (env.branch.Some? && env.branch.value != "" && env.branch.value != "main"
                      && env.branch.value != "production") || env.mode != "production";
    if isPreview {
      response.SetHeader(RobotsHeader, NoIndex);
    } else {
      response.SetHeader(RobotsHeader, IndexAll);
    }
    return response;
  }
}
