/** The two endpoints the client reaches through the proxy after a batch:
    the proxy's authorization subrequest, which checks the
    `Authorization: Key <key>` header against the key table, and the
    object-store PUT handler, which in this design refuses every request. */
module Endpoints {
  import opened Wrappers
  import opened PyStr
  import opened Keys
  import opened Protocol
  import opened BatchApi

  /** The key carried by an `Authorization` header value, if it has the
      `Key ` scheme prefix. */
  function ParseKeyHeader(authorization: Option<string>): (key: Option<string>)
    ensures key.Some? <==> authorization.Some? && StartsWith(authorization.value, KeyPrefix)
    ensures key.Some? ==> authorization.value == KeyPrefix + key.value
  {
    if authorization.Some? && StartsWith(authorization.value, KeyPrefix)
    then Some(authorization.value[|KeyPrefix|..])
    else None
  }

  /** The header a batch hands out reads back as the key it was built from. */
  lemma KeyHeaderRoundTrip(key: string)
    ensures ParseKeyHeader(Some(KeyHeader(key)[AuthorizationHeader])) == Some(key)
  {
  }

  /** Whether the subrequest lets the transfer through. */
  predicate AuthAccepts(table: map<string, int>, authorization: Option<string>, now: real) {
    var key := ParseKeyHeader(authorization);
    key.Some? && KeyValid(table, key.value, now)
  }

  /** `nginx_auth_request`: 401 when the header is missing, lacks the `Key `
      prefix, or names a key that is unknown or expired at `now`; 200
      otherwise. The key table is only read. */
  method NginxAuthRequest(km: KeyManager, authorization: Option<string>, now: real) returns (status: int)
    ensures status == 200 || status == 401
    ensures status == 200 <==> AuthAccepts(km.expiresAt, authorization, now)
    ensures authorization.None? ==> status == 401
  {
    if authorization.None? || !StartsWith(authorization.value, KeyPrefix) {
      return 401;
    }
    var keyValue := authorization.value[|KeyPrefix|..];
    var valid := km.IsValidKey(keyValue, now);
    if !valid {
      return 401;
    }
    return 200;
  }

  /** `upload_store(repo, oid)`: the PUT handler aborts with 400 whatever
      the repository, the object and the headers (with or without an
      `X-FILE` header). Storing uploads is not implemented in this design. */
  function UploadStore(repo: string, oid: string, hasXFile: bool): (r: Response)
    ensures r == Abort(400)
  {
    Abort(400)
  }

  /** End to end: in the key table a negotiated batch leaves behind, the
      header of any of its actions passes the authorization subrequest at
      every instant before the action's expiry and is refused from then on. */
  lemma IssuedHeaderAuthorizes(t0: map<string, int>, t1: map<string, int>,
                               env: Env, repo: string, req: BatchRequest,
                               resp: Response, i: nat, now: real)
    requires BatchOutcome(t0, t1, env, repo, req, resp) && resp.Negotiated?
    requires i < |resp.objects| && resp.objects[i].Granted?
    ensures AuthorizationHeader in resp.objects[i].action.header
    ensures AuthAccepts(t1, Some(resp.objects[i].action.header[AuthorizationHeader]), now)
            <==> now < resp.objects[i].action.expiresAt as real
  {
  }
}
