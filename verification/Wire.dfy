/** What goes over a websocket between a browser and the server.  Room keys and sealed
    payloads are symbolic: a sealed box opens under the key it was sealed with and under
    no other, and a key ID stands for its key. */
module Wire {
  import opened Wrappers
  import opened StoreSpec

  type Id = string
  type Key = nat

  datatype Box = Box(key: Key)

  /** To a browser. */
  datatype Msg =
    | Welcome(id: Id, members: seq<Id>, known: bool, requests: seq<Request>)
    | PeerJoined(id: Id)
    | PeerLeft(id: Id)
    | Kx(from: Id, keyId: Key)
    | Signal(from: Id, box: Box)
    | Relay(from: Id, box: Box)
    | ClaimResult(ok: bool, requests: seq<Request>, inboxPub: string)
    | JoinStatus(status: Result<Request>, inboxPub: string)
    | JoinRequests(requests: seq<Request>, inboxPub: string)
    | JoinPost(req: Digest, post: JoinMessage)
    | JoinPostError(req: Digest, error: Error)

  /** From a browser.  Forwarded payloads are addressed to one peer, or to "" for all. */
  datatype Up =
    | KxTo(to: Id, keyId: Key)
    | SignalTo(to: Id, box: Box)
    | RelayTo(to: Id, box: Box)
    | ClaimRoom(create: bool, inboxPub: string)
    | AskToJoin(name: string, pub: string)
    | ApproveJoin(req: Digest, approverPub: string, wrap: string)
    | RejectJoin(req: Digest)
    | JoinDone(req: Digest)
    | PostToJoin(req: Digest, msgId: string, data: string)
}
