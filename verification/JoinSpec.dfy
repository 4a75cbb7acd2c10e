/** What the server's read loop does with a join message: the change it makes in the
    store under the store's lock, and the messages it then sends, each on its own. */
module JoinSpec {
  import opened Wrappers
  import opened StoreSpec
  import S = StoreSpec
  import opened Wire

  /** What is still to be done for a message, in order.  Replies that quote the store are
      composed when their turn comes. */
  datatype Action =
    | ClaimReply(ok: bool)
    | StatusReply(request: Request)
    | Broadcast
    | Post(msg: Msg)
    | ToAll(msg: Msg)
    | Decided(request: Request)
    | Mark(req: Digest)
    | Finish(req: Digest)

  datatype Effect = Effect(held: Option<Room>, reqID: Option<Digest>, todo: seq<Action>)

  predicate Forwarded(u: Up) {
    u.KxTo? || u.SignalTo? || u.RelayTo?
  }

  function AfterClaim(held: Option<Room>, create: bool, inboxPub: string, now: int): (Option<Room>, seq<Action>) {
    var (r, ok) := S.Claim(held, now, create, inboxPub);
    var news := ok && !create && InboxPub(held) == "" && InboxPub(r) != "";
    (r, [ClaimReply(ok)] + (if news then [Broadcast] else []))
  }

  function AfterSubmit(res: Result<Request>): seq<Action> {
    match res
    case Failure(e) => [Post(JoinStatus(Failure(e), ""))]
    case Success(q) => [Mark(q.id), StatusReply(q)] + (if q.status == Pending then [Broadcast] else [])
  }

  function AfterVerdict(res: Result<Request>): seq<Action> {
    match res
    case Failure(_) => []
    case Success(q) => [Decided(q), Broadcast]
  }

  function AfterPost(req: Digest, res: Result<JoinMessage>): seq<Action> {
    match res
    case Failure(e) => [Post(JoinPostError(req, e))]
    case Success(m) => [ToAll(JoinPost(req, m))]
  }

  /** A connection that submitted a request decides nothing, and writes on no other. */
  function Handle(held: Option<Room>, reqID: Option<Digest>, u: Up, now: int): Effect
    requires !Forwarded(u)
  {
    match u
    case ClaimRoom(create, inboxPub) =>
      var (r, todo) := AfterClaim(held, create, inboxPub, now);
      Effect(r, reqID, todo)
    case AskToJoin(name, pub) =>
      var (r, res) := S.Submit(held, now, name, pub);
      Effect(r, reqID, AfterSubmit(res))
    case ApproveJoin(id, pub, wrap) =>
      if reqID.Some? then Effect(held, reqID, [])
      else
        var (r, res) := S.Decide(held, now, id, Approve(pub, wrap));
        Effect(r, reqID, AfterVerdict(res))
    case RejectJoin(id) =>
      if reqID.Some? then Effect(held, reqID, [])
      else
        var (r, res) := S.Decide(held, now, id, Reject);
        Effect(r, reqID, AfterVerdict(res))
    case PostToJoin(id, msgId, data) =>
      if reqID.Some? && reqID != Some(id) then Effect(held, reqID, [])
      else
        var (r, res) := S.AddMessage(held, now, id, msgId, data);
        Effect(r, reqID, AfterPost(id, res))
    case JoinDone(id) =>
      if reqID == Some(id) then Effect(held, None, [Finish(id)]) else Effect(held, reqID, [])
  }

  /** The message a composing action sends. */
  function AnswerMsg(held: Option<Room>, ok: bool, list: seq<Request>): Msg {
    if ok then ClaimResult(true, list, InboxPub(held)) else ClaimResult(false, [], "")
  }

  function RequestsMsg(held: Option<Room>, list: seq<Request>): Msg {
    JoinRequests(list, InboxPub(held))
  }

  /** A decision: a request that was pending no longer is. */
  predicate DecidesSome(before: Option<Room>, after: Option<Room>, id: Digest) {
    IsPending(before, id) && after.Some? && id in after.value.requests && after.value.requests[id].status != Pending
  }

  /** Only an approve or reject from a connection without a request of its own decides. */
  lemma OnlyMembersDecide(held: Option<Room>, reqID: Option<Digest>, u: Up, now: int, id: Digest)
    requires !Forwarded(u)
    ensures DecidesSome(held, Handle(held, reqID, u, now).held, id) ==> reqID.None? && match u
      case ApproveJoin(req, pub, wrap) => req == id && ValidVerdict(Approve(pub, wrap))
      case RejectJoin(req) => req == id
      case _ => false
  {}
}
