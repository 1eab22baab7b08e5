# Git LFS batch server (basic transfer adapter), early key-table design

This project models the core of a small Git LFS server, `lfs_server.py`. The
server answers the LFS Batch API for any repository under its storage root:
each batch request names one repository, taken from its URL
(`/lfs/<repo>/info/lfs/objects/batch`). Each negotiated batch
registers one random access key in an in-memory table, with an expiry one
hour after the request, and every upload or download action of that batch
carries the header `Authorization: Key <key>`. The reverse proxy serves the
bytes. Before it does, it calls the server's authorization subrequest, which
accepts the header only when the key is in the table of the worker that
answers it and not yet expired. The model has one table, that of a single
server process; see `Endpoints.IssuedHeaderAuthorizes` under "## Left out"
for what this means when several workers run.

Modules, one per concern of the source file:

- `Keys` (keys.dfy): the `KeyManager` class. Its field `expiresAt: map<string, int>` is updated in place.
- `PyStr` (pystr.dfy): the Python string semantics the server relies on. These are clamped slices, `rstrip` and `startswith`.
- `PurePath` (purepath.dfy): `pathlib.PurePosixPath` construction and `/` joining. Empty and `.` components are dropped, and an absolute right operand replaces the left one.
- `Layout` (layout.dfy): `base_dir`, `oid_path` and `oid_url`. The object file is `<root>/<repo>/objects/<oid[0:2]>/<oid[2:4]>/<oid>`, and the URL is `<url root>/upload_store/<repo>/<oid>`.
- `Protocol` (protocol.dfy): the batch request and response as datatypes, with the adapter name, header name and error message constants.
- `BatchApi` (batch.dfy): `access_key`, `download`, `upload` and `batch`. These are methods that register the key and build the object list in a loop. Each is proved against a specification predicate (`DownloadOutcome`, `UploadOutcome`, `BatchOutcome`) that relates the key table before and after, the environment, the request and the response.
- `Endpoints` (endpoints.dfy): `nginx_auth_request` and `upload_store`, plus the end-to-end property that links a batch's header to the subrequest.

The handler's environment is passed in as parameters. It is the `Env` value: storage root, request URL root, files on disk, fresh random key and wall-clock time. The key table is the `KeyManager` object passed to each method.

Where this design differs from the later design of the same project, the model follows the code. The later design has signed stateless tokens scoped to a repository, repository-name validation, `/upload/` and `/download/` routes, and a working upload handler. The code has none of these:

- keys are random strings kept in a table, and a key is not tied to a repository;
- the subrequest does not look at the request path at all;
- the action URL for both downloads and uploads is `/upload_store/<repo>/<oid>`;
- the PUT handler for that route always answers 400;
- neither the repository name nor the object id is validated. `Layout.AbsoluteOidEscapesRoot` states one consequence: an id that starts with `/` makes the server look up a file outside the storage root.

## Model

| member | source | states |
|---|---|---|
| `Keys.KeyManager.constructor` | lfs_server.py:14-16 | the table starts empty |
| `Keys.KeyManager.RegisterAccessKey` | lfs_server.py:18-21 | the new table is the old one with `key` mapped to `expiry` (insert or overwrite); afterwards the key is valid exactly before `expiry`; every other key keeps its presence and expiry |
| `Keys.KeyManager.IsValidKey` | lfs_server.py:23-27 | true exactly when the key is in the table and `now` is strictly before its expiry; an unregistered key is invalid; the table is unchanged |
| `Keys.RegisteredValidIff` | lfs_server.py:18-27 | after registering `(k, t)`, `k` is valid at `now` iff `now < t`, whatever the table held before |
| `Keys.ReRegisterOverwrites` | lfs_server.py:18-20 | registering a key twice leaves only the second expiry |
| `Keys.RegisterFrame` | lfs_server.py:18-20 | registering one key does not change the verdict on any other key |
| `PyStr.Slice` | lfs_server.py:42 | Python slice semantics: bounds clamp to the length, characters are those of the source at the shifted index, and in-range slices are ordinary subsequences |
| `PyStr.RStrip` | lfs_server.py:48 | the result is the longest prefix not ending in the character; everything removed is that character |
| `PyStr.StartsWith` | lfs_server.py:158 | `key.startswith("Key ")`; no contract of its own, its use is stated by `Endpoints.ParseKeyHeader` |
| `PyStr.RStripAbsorbs` | lfs_server.py:48 | appending the stripped character first does not change the result |
| `PurePath.FirstSlash` | lfs_server.py:35-42 | the index of the first `/`, with no `/` before it |
| `PurePath.Components` | lfs_server.py:35-42 | every component pathlib keeps is non-empty, not `.`, and free of `/`; the empty string and `.` have none (which segments are kept, and in which order, is stated by `ComponentsOfSegment` and `ComponentsSplit`) |
| `PurePath.ComponentsOfSegment` | lfs_server.py:35-42 | a string without `/` is kept as its only component unless it is empty or `.`, which leave nothing |
| `PurePath.ComponentsSplit` | lfs_server.py:35-42 | the components of `a/b` are those of the segment `a` followed by those of `b`, so the segments are kept in order |
| `PurePath.Parse` | lfs_server.py:35-37 | a path is absolute exactly when its string starts with `/`, and its parts are the string's components |
| `PurePath.Join` | lfs_server.py:37-42 | joining an absolute string yields that path alone; otherwise the string's components are appended to the left path, whose anchoring is kept |
| `PurePath.JoinAll` | lfs_server.py:41-42 | the chain `p / s0 / s1 / ...`; no contract of its own, its meaning is stated by `JoinAllComponents` and `JoinAllEndsAbsolute` |
| `PurePath.JoinAllComponents` | lfs_server.py:41-42 | joining proper components one after another appends them all, keeping the anchoring |
| `PurePath.JoinAllEndsAbsolute` | lfs_server.py:41-42 | a chain of joins whose last string is absolute yields that string's path alone |
| `PurePath.SingleComponent` | lfs_server.py:42 | a string that is one proper component splits into exactly itself |
| `PurePath.JoinComponent` | lfs_server.py:42 | joining one proper component appends it |
| `PurePath.FirstSlashOfJoined` | lfs_server.py:48 | in `a + "/" + b`, with `a` free of `/`, the first `/` is the one after `a` |
| `Layout.BaseDir` | lfs_server.py:33-37 | the relative form is the repository path alone; the absolute form is the root's components followed by the repository's, or the repository alone when its name is absolute |
| `Layout.OidPath` | lfs_server.py:40-43 | the chain `base_dir(repo) / "objects" / oid[0:2] / oid[2:4] / oid`; no contract of its own, its shape is stated by `OidPathEndsInShards` and `OidPathLayout` |
| `Layout.OidPathEndsInShards` | lfs_server.py:40-43 | whatever the repository name, a well-formed id ends the path in `objects/<oid[0:2]>/<oid[2:4]>/<oid>` |
| `Layout.OidPathLayout` | lfs_server.py:40-43 | for a relative repository and an id of 4 or more characters without `/`, the object path is `[root /] repo / objects / oid[0:2] / oid[2:4] / oid` |
| `Layout.OidPathInjective` | lfs_server.py:40-43 | two such requests that reach the same file have the same repository components and the same id |
| `Layout.RelativeOidPathIsSuffix` | lfs_server.py:33-43 | the absolute object path is the root's components followed by the relative object path |
| `Layout.AbsoluteOidEscapesRoot` | lfs_server.py:40-43 | an id that starts with `/` replaces the whole path: the root and the repository are discarded |
| `Layout.OidUrl` | lfs_server.py:46-48 | the URL starts with the URL root stripped of trailing slashes followed by `/upload_store/`, and ends with `/` and the id; `OidUrlInjective` shows it determines the repository and id |
| `Layout.OidUrlIgnoresTrailingSlash` | lfs_server.py:46-48 | a trailing `/` on the URL root does not change the action URL |
| `Layout.OidUrlInjective` | lfs_server.py:46-48 | on one URL root, repository names without `/` give distinct URLs for distinct `(repo, oid)` pairs |
| `Protocol.BasicOffered` | lfs_server.py:63 | `"basic" in req.get("transfers", ["basic"])`; no contract of its own, its effect (501 exactly when it fails for a known operation) is stated by `BatchApi.BatchStatus` |
| `Protocol.KeyHeader` | lfs_server.py:67 | the header map `{"Authorization": "Key <key>"}`; no contract of its own, `Endpoints.KeyHeaderRoundTrip` shows it parses back to the key and `BatchApi.OneKeyPerBatch` that every action of a batch carries it |
| `BatchApi.Trunc` | lfs_server.py:52 | `int()` on a float truncates toward zero: the result is within one of the input, on the side of zero |
| `BatchApi.AccessKey` | lfs_server.py:51-55 | `expires_at` is the truncated clock plus `expires_in` (default 3600); the table gains exactly that pair; afterwards the key is valid at every instant before `expires_at` and at no later one |
| `BatchApi.DownloadObjects` | lfs_server.py:69-95 | the loop of `download`: 500 exactly when some requested object lacks an oid; otherwise one entry per object, in order, each an action with the stored size, shared header and expiry when the object's file is in the store, and a 404 error otherwise |
| `BatchApi.UploadObjects` | lfs_server.py:108-124 | the loop of `upload`: 500 exactly when some object lacks an oid or a size; otherwise one upload action per object, in order, with the declared size, the object's URL and the shared header and expiry |
| `BatchApi.HandleDownload` | lfs_server.py:62-97 | 501 and no key when "basic" is not offered (an absent list offers it); otherwise the key is registered, and the response is 500 if the object list or an oid is missing, else one entry per requested object, in order, as `DownloadEntry` describes |
| `BatchApi.HandleUpload` | lfs_server.py:100-126 | 501 and no key when "basic" is not offered; otherwise the key is registered, and the response is 500 if the list, an oid or a size is missing, else one upload action per object, in order, echoing the declared size, as `UploadEntry` describes |
| `BatchApi.Batch` | lfs_server.py:129-140 | a missing operation gives 500, `download` and `upload` dispatch to their handlers, and any other operation gives 400 with the table unchanged |
| `BatchApi.BatchStatus` | lfs_server.py:63-140 | the overall status is 200, 400, 500 or 501; 400 exactly for an unknown operation; 501 exactly for a known one without "basic"; on 400 and 501 no key is registered; on 200 exactly the batch's key is added |
| `BatchApi.EntriesFollowRequest` | lfs_server.py:69-95 | a negotiated batch has one entry per requested object, and entry `i` names the `i`-th requested oid |
| `BatchApi.OneKeyPerBatch` | lfs_server.py:66-67 | every action of one batch carries the header `Key <fresh key>` and the same expiry, and the table maps that key to that expiry |
| `BatchApi.DownloadFollowsStore` | lfs_server.py:72-95 | a download entry is an action iff the object's file exists, with the stored size and the `/upload_store/` URL; otherwise it is a 404 error for that object only |
| `BatchApi.UploadEchoesDeclaredSize` | lfs_server.py:109-124 | every upload entry is an upload action whose size is the caller's declared size, not checked against storage, with the object's URL |
| `Endpoints.ParseKeyHeader` | lfs_server.py:157-160 | a key is found iff the header is present and starts with `Key `, and the header is then `Key ` followed by the key |
| `Endpoints.KeyHeaderRoundTrip` | lfs_server.py:67 | the header a batch builds parses back to the key it was built from |
| `Endpoints.NginxAuthRequest` | lfs_server.py:154-164 | the status is 200 or 401; 200 exactly when the header has the `Key ` prefix and the key after it is valid at `now`; a missing header gives 401 |
| `Endpoints.UploadStore` | lfs_server.py:143-151 | every PUT to the object store is answered with 400, whatever the headers |
| `Endpoints.IssuedHeaderAuthorizes` | lfs_server.py:154-164 | the header of any action in a negotiated batch passes the subrequest exactly at the instants before that action's expiry, in the table the batch left behind |

## Left out

- Flask routing, `request.json` parsing, `jsonify` and the response content type are not modelled. A response is the `Response` datatype: a status, or the negotiated object list.
- Request fields that are not JSON objects or lists of the expected type are not modelled (for instance a `transfers` value that is a string, or `null`). The model covers fields that are present or absent.
- Endpoints.IssuedHeaderAuthorizes: holds for the key table of a single server process only. gunicorn.conf.py:5 starts `cpu_count() * 2 + 1` workers, and each has its own module-level table (lfs_server.py:30). The subrequest reaches the table of the worker that registered the key (lfs_server.py:54) only by chance; any other worker answers 401 for a fresh key (lfs_server.py:161). The model does not describe several processes.
- The lock in `KeyManager` is not modelled. The table is accessed sequentially, because concurrency is outside the model.
- `secrets.token_hex()` and `time.time()` are parameters of the handler (`Env.freshKey`, `Env.clock`, and `now` for the subrequest). Floating-point rounding of the clock is not modelled, and time is a real number.
- The filesystem's `is_file()` and `stat().st_size` are a map from lexical path to size. Symbolic links, `..` resolution and directories named like files are not modelled.
- `PurePath.Parse` does not model pathlib's special case of exactly two leading slashes (`//x`). The model treats it like one leading slash.
- The ISO-8601 formatting of the upload action's `expires_at` is not modelled. The model keeps the integer expiry for both operations.
- The `print` calls, `app.run` and the `app.config` setup are I/O and configuration. The storage root and URL root are parameters.
- `access_key`'s `repo` and `req` arguments are not parameters of `BatchApi.AccessKey`, because the source does not use them.
- tests/test_gitlfs_server.py and gunicorn.conf.py are not part of this model. They drive `git` against a live server, or configure the process manager.
