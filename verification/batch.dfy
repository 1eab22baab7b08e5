/** The batch endpoint: one request names an operation and a list of
    objects, and the server answers each object with a transfer action or
    an error. One fresh access key is registered per negotiated batch and
    shared by all of its actions. The random key, the wall clock, the
    storage directory, the request's URL root and the files on disk are
    the handler's environment, passed in as an `Env`. */
module BatchApi {
  import opened Wrappers
  import opened PurePath
  import opened Keys
  import opened Layout
  import opened Protocol

  /** Lifetime of an access key, in seconds. */
  const DefaultExpiresIn: int := 60 * 60

  /** What one invocation of a handler observes outside its arguments:
      the storage root, the request's URL root, the files under the root
      with their sizes, the key the random generator yields, and the
      wall-clock time in seconds. */
  datatype Env = Env(
    lfsRoot: string,
    urlRoot: string,
    store: map<Path, nat>,
    freshKey: string,
    clock: real)

  /** Python's `int(x)` on a float: truncation toward zero. */
  function Trunc(x: real): (r: int)
    ensures 0.0 <= x ==> r as real <= x < r as real + 1.0
    ensures x < 0.0 ==> r as real - 1.0 < x <= r as real
  {
    if 0.0 <= x then x.Floor else -((-x).Floor)
  }

  /** The expiry given to the key of a batch handled at `clock`. */
  function BatchExpiry(clock: real): int {
    Trunc(clock) + DefaultExpiresIn
  }

  /** `access_key`: registers `key` until `expires_in` seconds after the
      truncated clock and hands both back. */
  method AccessKey(km: KeyManager, key: string, clock: real, expiresIn: int := DefaultExpiresIn)
    returns (issued: string, expiresAt: int)
    modifies km
    ensures issued == key && expiresAt == Trunc(clock) + expiresIn
    ensures km.expiresAt == old(km.expiresAt)[key := expiresAt]
    ensures forall now: real :: KeyValid(km.expiresAt, issued, now) <==> now < expiresAt as real
  {
    expiresAt := Trunc(clock) + expiresIn;
    issued := key;
    km.RegisterAccessKey(issued, expiresAt);
  }

  /** Every requested object names an oid (else `obj["oid"]` fails). */
  predicate AllHaveOid(objs: seq<ObjectSpec>) {
    forall i :: 0 <= i < |objs| ==> objs[i].oid.Some?
  }

  /** Every requested object names an oid and a size. */
  predicate AllHaveOidAndSize(objs: seq<ObjectSpec>) {
    forall i :: 0 <= i < |objs| ==> objs[i].oid.Some? && objs[i].size.Some?
  }

  /** The response entry for a download of `oid`: the stored size and a
      download action when the object's file exists, else a 404 error. */
  predicate DownloadEntry(env: Env, repo: string, key: string, expiresAt: int, oid: string, e: ObjectEntry) {
    var path := OidPath(env.lfsRoot, repo, oid, false);
    if path in env.store then
      e == Granted(oid, env.store[path], true, Download,
                   Action(OidUrl(env.urlRoot, repo, oid), KeyHeader(key), expiresAt))
    else
      e == Refused(oid, 404, NotFoundMessage)
  }

  /** The response entry for an upload of `oid` declared with `size`:
      the declared size, unchecked, and an upload action. */
  predicate UploadEntry(env: Env, repo: string, key: string, expiresAt: int, oid: string, size: int, e: ObjectEntry) {
    e == Granted(oid, size, true, Upload,
                 Action(OidUrl(env.urlRoot, repo, oid), KeyHeader(key), expiresAt))
  }

  /** What `download` does, from the key table before (`t0`) to after (`t1`). */
  predicate DownloadOutcome(t0: map<string, int>, t1: map<string, int>,
                            env: Env, repo: string, req: BatchRequest, resp: Response) {
    if !BasicOffered(req.transfers) then
      resp == Abort(501) && t1 == t0
    else
      var exp := BatchExpiry(env.clock);
      && t1 == t0[env.freshKey := exp]
      && if req.objects.None? || !AllHaveOid(req.objects.value) then
           resp == Abort(500)
         else
           var objs := req.objects.value;
           && resp.Negotiated?
           && resp.transfer == BasicTransfer
           && |resp.objects| == |objs|
           && forall i :: 0 <= i < |objs| ==>
                DownloadEntry(env, repo, env.freshKey, exp, objs[i].oid.value, resp.objects[i])
  }

  /** What `upload` does, from the key table before (`t0`) to after (`t1`). */
  predicate UploadOutcome(t0: map<string, int>, t1: map<string, int>,
                          env: Env, repo: string, req: BatchRequest, resp: Response) {
    if !BasicOffered(req.transfers) then
      resp == Abort(501) && t1 == t0
    else
      var exp := BatchExpiry(env.clock);
      && t1 == t0[env.freshKey := exp]
      && if req.objects.None? || !AllHaveOidAndSize(req.objects.value) then
           resp == Abort(500)
         else
           var objs := req.objects.value;
           && resp.Negotiated?
           && resp.transfer == BasicTransfer
           && |resp.objects| == |objs|
           && forall i :: 0 <= i < |objs| ==>
                UploadEntry(env, repo, env.freshKey, exp, objs[i].oid.value, objs[i].size.value, resp.objects[i])
  }

  /** What `batch` does: dispatch on the operation. */
  predicate BatchOutcome(t0: map<string, int>, t1: map<string, int>,
                         env: Env, repo: string, req: BatchRequest, resp: Response) {
    match req.operation
    case None => resp == Abort(500) && t1 == t0
    case Some(op) =>
      if op == "download" then DownloadOutcome(t0, t1, env, repo, req, resp)
      else if op == "upload" then UploadOutcome(t0, t1, env, repo, req, resp)
      else resp == Abort(400) && t1 == t0
  }

  /** The loop of `download`: one entry per requested object, in order,
      or 500 as soon as an object lacks its oid. Only reads the store. */
  method DownloadObjects(env: Env, repo: string, key: string, expiresAt: int, objs: seq<ObjectSpec>)
    returns (resp: Response)
    ensures !AllHaveOid(objs) ==> resp == Abort(500)
    ensures AllHaveOid(objs) ==>
              && resp.Negotiated?
              && resp.transfer == BasicTransfer
              && |resp.objects| == |objs|
              && forall i :: 0 <= i < |objs| ==>
                   DownloadEntry(env, repo, key, expiresAt, objs[i].oid.value, resp.objects[i])
  {
    var entries: seq<ObjectEntry> := [];
    var i := 0;
    while i < |objs|
      invariant 0 <= i <= |objs|
      invariant |entries| == i
      invariant forall j :: 0 <= j < i ==>
                  objs[j].oid.Some? && DownloadEntry(env, repo, key, expiresAt, objs[j].oid.value, entries[j])
    {
      if objs[i].oid.None? {
        assert !AllHaveOid(objs);
        return Abort(500);
      }
      var oid := objs[i].oid.value;
      var path := OidPath(env.lfsRoot, repo, oid, false);
      var entry;
      if path in env.store {
        entry := Granted(oid, env.store[path], true, Download,
                         Action(OidUrl(env.urlRoot, repo, oid), KeyHeader(key), expiresAt));
      } else {
        entry := Refused(oid, 404, NotFoundMessage);
      }
      assert DownloadEntry(env, repo, key, expiresAt, oid, entry);
      entries := entries + [entry];
      i := i + 1;
    }
    assert AllHaveOid(objs);
    resp := Negotiated(BasicTransfer, entries);
  }

  /** `download(repo, req)`. */
  method HandleDownload(km: KeyManager, env: Env, repo: string, req: BatchRequest) returns (resp: Response)
    modifies km
    ensures DownloadOutcome(old(km.expiresAt), km.expiresAt, env, repo, req, resp)
  {
    if !BasicOffered(req.transfers) {
      return Abort(501);
    }
    var key, expiresAt := AccessKey(km, env.freshKey, env.clock);
    assert key == env.freshKey && expiresAt == BatchExpiry(env.clock);
    if req.objects.None? {
      return Abort(500);
    }
    resp := DownloadObjects(env, repo, key, expiresAt, req.objects.value);
  }

  /** The loop of `upload`: one upload action per requested object, in
      order, or 500 as soon as an object lacks its oid or its size. */
  method UploadObjects(env: Env, repo: string, key: string, expiresAt: int, objs: seq<ObjectSpec>)
    returns (resp: Response)
    ensures !AllHaveOidAndSize(objs) ==> resp == Abort(500)
    ensures AllHaveOidAndSize(objs) ==>
              && resp.Negotiated?
              && resp.transfer == BasicTransfer
              && |resp.objects| == |objs|
              && forall i :: 0 <= i < |objs| ==>
                   UploadEntry(env, repo, key, expiresAt, objs[i].oid.value, objs[i].size.value, resp.objects[i])
  {
    var entries: seq<ObjectEntry> := [];
    var i := 0;
    while i < |objs|
      invariant 0 <= i <= |objs|
      invariant |entries| == i
      invariant forall j :: 0 <= j < i ==>
                  objs[j].oid.Some? && objs[j].size.Some? &&
                  UploadEntry(env, repo, key, expiresAt, objs[j].oid.value, objs[j].size.value, entries[j])
    {
      if objs[i].oid.None? || objs[i].size.None? {
        assert !AllHaveOidAndSize(objs);
        return Abort(500);
      }
      var oid := objs[i].oid.value;
      var url := OidUrl(env.urlRoot, repo, oid);
      var size := objs[i].size.value;
      entries := entries + [Granted(oid, size, true, Upload, Action(url, KeyHeader(key), expiresAt))];
      i := i + 1;
    }
    assert AllHaveOidAndSize(objs);
    resp := Negotiated(BasicTransfer, entries);
  }

  /** `upload(repo, req)`. */
  method HandleUpload(km: KeyManager, env: Env, repo: string, req: BatchRequest) returns (resp: Response)
    modifies km
    ensures UploadOutcome(old(km.expiresAt), km.expiresAt, env, repo, req, resp)
  {
    if !BasicOffered(req.transfers) {
      return Abort(501);
    }
    var key, expiresAt := AccessKey(km, env.freshKey, env.clock);
    assert key == env.freshKey && expiresAt == BatchExpiry(env.clock);
    if req.objects.None? {
      return Abort(500);
    }
    resp := UploadObjects(env, repo, key, expiresAt, req.objects.value);
  }

  /** `batch(repo)`: the POST handler of `/lfs/<repo>/info/lfs/objects/batch`. */
  method Batch(km: KeyManager, env: Env, repo: string, req: BatchRequest) returns (resp: Response)
    modifies km
    ensures BatchOutcome(old(km.expiresAt), km.expiresAt, env, repo, req, resp)
  {
    if req.operation.None? {
      return Abort(500);
    }
    var op := req.operation.value;
    if op == "download" {
      resp := HandleDownload(km, env, repo, req);
    } else if op == "upload" {
      resp := HandleUpload(km, env, repo, req);
    } else {
      resp := Abort(400);
    }
  }

  /** The request-level outcomes and their causes, in both directions. */
  lemma BatchStatus(t0: map<string, int>, t1: map<string, int>,
                    env: Env, repo: string, req: BatchRequest, resp: Response)
    requires BatchOutcome(t0, t1, env, repo, req, resp)
    ensures Status(resp) in {200, 400, 500, 501}
    ensures Status(resp) == 400 <==>
              req.operation.Some? && req.operation.value != "download" && req.operation.value != "upload"
    ensures Status(resp) == 501 <==>
              req.operation.Some? && req.operation.value in {"download", "upload"} && !BasicOffered(req.transfers)
    ensures Status(resp) == 200 ==> req.operation.Some? && req.operation.value in {"download", "upload"}
    ensures Status(resp) in {400, 501} || req.operation.None? ==> t1 == t0
    ensures Status(resp) == 200 ==> t1 == t0[env.freshKey := BatchExpiry(env.clock)]
  {
  }

  /** A negotiated batch answers the requested objects one for one, in
      the order they were requested. */
  lemma EntriesFollowRequest(t0: map<string, int>, t1: map<string, int>,
                             env: Env, repo: string, req: BatchRequest, resp: Response)
    requires BatchOutcome(t0, t1, env, repo, req, resp) && resp.Negotiated?
    ensures req.objects.Some? && |resp.objects| == |req.objects.value|
    ensures forall i :: 0 <= i < |resp.objects| ==>
              req.objects.value[i].oid.Some? && resp.objects[i].oid == req.objects.value[i].oid.value
  {
  }

  /** Every action of one batch carries the same header, naming the key
      that the batch registered, and the same expiry. */
  lemma OneKeyPerBatch(t0: map<string, int>, t1: map<string, int>,
                       env: Env, repo: string, req: BatchRequest, resp: Response, i: nat)
    requires BatchOutcome(t0, t1, env, repo, req, resp) && resp.Negotiated?
    requires i < |resp.objects| && resp.objects[i].Granted?
    ensures resp.objects[i].action.header == KeyHeader(env.freshKey)
    ensures resp.objects[i].action.expiresAt == BatchExpiry(env.clock)
    ensures env.freshKey in t1 && t1[env.freshKey] == BatchExpiry(env.clock)
  {
  }

  /** A download entry is an action exactly when the object's file is in
      the store, with the stored size and the object's URL; otherwise it
      is a 404 error for that object alone. */
  lemma DownloadFollowsStore(t0: map<string, int>, t1: map<string, int>,
                             env: Env, repo: string, req: BatchRequest, resp: Response, i: nat)
    requires req.operation == Some("download")
    requires BatchOutcome(t0, t1, env, repo, req, resp) && resp.Negotiated?
    requires i < |resp.objects|
    ensures req.objects.Some? && i < |req.objects.value| && req.objects.value[i].oid.Some?
    ensures var oid := req.objects.value[i].oid.value;
            var path := OidPath(env.lfsRoot, repo, oid, false);
            && (resp.objects[i].Granted? <==> path in env.store)
            && (resp.objects[i].Granted? ==>
                  && resp.objects[i].size == env.store[path]
                  && resp.objects[i].operation == Download
                  && resp.objects[i].action.href == OidUrl(env.urlRoot, repo, oid))
            && (resp.objects[i].Refused? ==> resp.objects[i].code == 404)
  {
  }

  /** An upload entry always grants, echoing the size the client declared. */
  lemma UploadEchoesDeclaredSize(t0: map<string, int>, t1: map<string, int>,
                                 env: Env, repo: string, req: BatchRequest, resp: Response, i: nat)
    requires req.operation == Some("upload")
    requires BatchOutcome(t0, t1, env, repo, req, resp) && resp.Negotiated?
    requires i < |resp.objects|
    ensures req.objects.Some? && i < |req.objects.value|
    ensures req.objects.value[i].size == Some(resp.objects[i].size)
    ensures resp.objects[i].Granted? && resp.objects[i].operation == Upload
    ensures resp.objects[i].action.href == OidUrl(env.urlRoot, repo, resp.objects[i].oid)
  {
  }
}
