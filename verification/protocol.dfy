/** The batch request and response of the LFS batch endpoint, as the
    server reads and writes them (the JSON encoding is not modelled).
    Fields the server indexes with `[...]` are optional here, because a
    request that lacks one makes the handler fail with a server error. */
module Protocol {
  import opened Wrappers

  /** The only transfer adapter the server implements. */
  const BasicTransfer := "basic"
  /** Header carrying the access key, and the scheme word before the key. */
  const AuthorizationHeader := "Authorization"
  const KeyPrefix := "Key "
  const NotFoundMessage := "Object does not exist"

  datatype Operation = Download | Upload

  /** One `{oid, size}` entry of the request. */
  datatype ObjectSpec = ObjectSpec(oid: Option<string>, size: Option<int>)

  datatype BatchRequest = BatchRequest(
    operation: Option<string>,
    transfers: Option<seq<string>>,
    objects: Option<seq<ObjectSpec>>)

  /** The `actions.download` or `actions.upload` descriptor. */
  datatype Action = Action(href: string, header: map<string, string>, expiresAt: int)

  /** One entry of the response: a transfer action, or a per-object error. */
  datatype ObjectEntry =
    | Granted(oid: string, size: int, authenticated: bool, operation: Operation, action: Action)
    | Refused(oid: string, code: int, message: string)

  /** A negotiated batch (HTTP 200) or a request-level abort with its status. */
  datatype Response =
    | Negotiated(transfer: string, objects: seq<ObjectEntry>)
    | Abort(status: int)

  function Status(r: Response): int {
    if r.Negotiated? then 200 else r.status
  }

  /** `"basic" in req.get("transfers", ["basic"])`: an absent list offers
      the basic adapter. */
  predicate BasicOffered(transfers: Option<seq<string>>) {
    transfers.None? || BasicTransfer in transfers.value
  }

  /** The header map shared by every action of one batch. */
  function KeyHeader(key: string): map<string, string> {
    map[AuthorizationHeader := KeyPrefix + key]
  }
}
