/** What the server keeps about a room: whether it exists, and its join requests.
    These functions specify the operations of Store on one room at a time. */
module StoreSpec {
  import opened Clock
  import opened Wrappers
  import opened Records
  import Codec

  const REQUEST_TTL := 7 * 24 * HOUR
  const REJECT_COOLDOWN := 24 * HOUR
  const MAX_PENDING := 10
  const MAX_NAME := 32
  const MAX_WRAP := 4096
  const MAX_MSGS := 20
  const MAX_MSG_LEN := 4096
  const MAX_MSG_ID := 64

  /** An ideal hash: the digest of a text is the text, wrapped. */
  datatype Digest = Sha256(of: string)

  datatype Status = Pending | Approved | Rejected
  datatype Error = Invalid | TooMany | NotFound | Full
  datatype Result<+T> = Success(value: T) | Failure(error: Error)

  datatype JoinMessage = JoinMessage(id: string, data: string, time: int)

  datatype Request = Request(id: Digest, name: string, pub: string, status: Status,
                             created: int, updated: int, approverPub: string, wrap: string,
                             messages: seq<JoinMessage>)

  datatype Room = Room(created: int, lastActive: int, inboxPub: string, requests: map<Digest, Request>)

  // ----- time -----

  function Ttl(s: Status): int {
    if s == Rejected then REJECT_COOLDOWN else REQUEST_TTL
  }

  predicate Expired(q: Request, now: int) {
    now - q.updated > Ttl(q.status)
  }

  /** Retention 0 keeps rooms for ever. */
  predicate Stale(r: Room, now: int, retention: int) {
    retention > 0 && now - r.lastActive > retention
  }

  predicate LivePending(q: Request, now: int) {
    q.status == Pending && !Expired(q, now)
  }

  function LiveIds(r: Room, now: int): set<Digest> {
    set id | id in r.requests && LivePending(r.requests[id], now)
  }

  // ----- operations on one room -----

  function CleanPub(pub: string): string {
    if pub != "" && !Codec.ValidPub(pub) then "" else pub
  }

  function ShownName(name: string): string {
    OrElse(Clip(name, MAX_NAME), "?")
  }

  function Claim(r: Option<Room>, now: int, create: bool, inboxPub: string): (Option<Room>, bool) {
    var inbox := CleanPub(inboxPub);
    match r
    case None => (Some(Room(now, now, inbox, map[])), true)
    case Some(room) =>
      if create then (r, false)
      else (Some(room.(lastActive := now, inboxPub := if room.inboxPub == "" then inbox else room.inboxPub)), true)
  }

  function NewRequest(name: string, pub: string, now: int): Request {
    Request(Sha256(pub), ShownName(name), pub, Pending, now, now, "", "", [])
  }

  function Touched(q: Request, name: string, now: int): Request {
    if q.status == Pending then q.(name := ShownName(name), updated := now) else q.(updated := now)
  }

  function Submit(r: Option<Room>, now: int, name: string, pub: string): (Option<Room>, Result<Request>) {
    if !Codec.ValidPub(pub) then (r, Failure(Invalid))
    else if r.None? then (r, Failure(NotFound))
    else
      var room := r.value;
      var id := Sha256(pub);
      if id in room.requests && !Expired(room.requests[id], now) then
        var q := Touched(room.requests[id], name, now);
        (Some(room.(requests := room.requests[id := q])), Success(q))
      else if |LiveIds(room, now)| >= MAX_PENDING then (r, Failure(TooMany))
      else
        var q := NewRequest(name, pub, now);
        (Some(room.(requests := room.requests[id := q])), Success(q))
  }

  predicate IsPending(r: Option<Room>, id: Digest) {
    r.Some? && id in r.value.requests && r.value.requests[id].status == Pending
  }

  predicate ValidMessage(msgId: string, data: string) {
    msgId != "" && |msgId| <= MAX_MSG_ID && data != "" && |data| <= MAX_MSG_LEN
  }

  function AddMessage(r: Option<Room>, now: int, id: Digest, msgId: string, data: string)
    : (Option<Room>, Result<JoinMessage>)
  {
    if !ValidMessage(msgId, data) then (r, Failure(Invalid))
    else if !IsPending(r, id) then (r, Failure(NotFound))
    else
      var q := r.value.requests[id];
      if |q.messages| >= MAX_MSGS then (r, Failure(Full))
      else
        var m := JoinMessage(msgId, data, now);
        var q' := q.(messages := q.messages + [m], updated := now);
        (Some(r.value.(requests := r.value.requests[id := q'])), Success(m))
  }

  datatype Verdict = Approve(approverPub: string, wrap: string) | Reject

  predicate ValidVerdict(v: Verdict) {
    v.Approve? ==> Codec.ValidPub(v.approverPub) && v.wrap != "" && |v.wrap| <= MAX_WRAP
  }

  function Judged(q: Request, v: Verdict, now: int): Request {
    match v
    case Approve(approverPub, wrap) =>
      q.(status := Approved, approverPub := approverPub, wrap := wrap, updated := now)
    case Reject => q.(status := Rejected, updated := now)
  }

  function Decide(r: Option<Room>, now: int, id: Digest, v: Verdict): (Option<Room>, Result<Request>) {
    if !ValidVerdict(v) then (r, Failure(Invalid))
    else if !IsPending(r, id) then (r, Failure(NotFound))
    else
      var q := Judged(r.value.requests[id], v, now);
      (Some(r.value.(requests := r.value.requests[id := q])), Success(q))
  }

  function Done(r: Option<Room>, id: Digest): Option<Room> {
    if r.Some? && id in r.value.requests && r.value.requests[id].status == Approved
    then Some(r.value.(requests := r.value.requests - {id})) else r
  }

  function DropExpired(r: Room, now: int): Room {
    r.(requests := map id | id in r.requests && !Expired(r.requests[id], now) :: r.requests[id])
  }

  function Purge(r: Option<Room>, now: int, retention: int): Option<Room> {
    if r.None? || Stale(r.value, now, retention) then None else Some(DropExpired(r.value, now))
  }

  function InboxPub(r: Option<Room>): string {
    if r.Some? then r.value.inboxPub else ""
  }

  function PendingSet(r: Option<Room>, now: int): set<Request> {
    if r.None? then {} else set id | id in LiveIds(r.value, now) :: r.value.requests[id]
  }

  ghost predicate ByAge(qs: seq<Request>) {
    forall i, j :: 0 <= i < j < |qs| ==> qs[i].created <= qs[j].created
  }

  /** Each live pending request once, in order of creation. */
  ghost predicate IsPendingList(out: seq<Request>, r: Option<Room>, now: int) {
    ByAge(out) && OnceEach(out) && forall q :: q in out <==> q in PendingSet(r, now)
  }

  ghost predicate OnceEach(qs: seq<Request>) {
    forall i, j :: 0 <= i < j < |qs| ==> qs[i].id != qs[j].id
  }

  // ----- the operations as events -----

  datatype Op =
    | ClaimOp(create: bool, inboxPub: string)
    | SubmitOp(name: string, pub: string)
    | MessageOp(id: Digest, msgId: string, data: string)
    | DecideOp(id: Digest, verdict: Verdict)
    | DoneOp(id: Digest)
    | PurgeOp
    | PendingQuery
    | InboxQuery
    | ExistsQuery

  datatype Out =
    | Claimed(ok: bool)
    | Answered(req: Result<Request>)
    | Posted(msg: Result<JoinMessage>)
    | Listed(reqs: set<Request>)
    | Inbox(pub: string)
    | Exists(yes: bool)
    | Silent

  function Apply(r: Option<Room>, now: int, retention: int, op: Op): (Option<Room>, Out) {
    match op
    case ClaimOp(create, inbox) => var (r', ok) := Claim(r, now, create, inbox); (r', Claimed(ok))
    case SubmitOp(name, pub) => var (r', q) := Submit(r, now, name, pub); (r', Answered(q))
    case MessageOp(id, msgId, data) => var (r', m) := AddMessage(r, now, id, msgId, data); (r', Posted(m))
    case DecideOp(id, v) => var (r', q) := Decide(r, now, id, v); (r', Answered(q))
    case DoneOp(id) => (Done(r, id), Silent)
    case PurgeOp => (Purge(r, now, retention), Silent)
    case PendingQuery => (r, Listed(PendingSet(r, now)))
    case InboxQuery => (r, Inbox(InboxPub(r)))
    case ExistsQuery => (r, Exists(r.Some?))
  }

  function Next(r: Option<Room>, now: int, retention: int, op: Op): Option<Room> {
    Apply(r, now, retention, op).0
  }

  /** Operations with the times at which they take the lock. */
  type Run = seq<(int, Op)>

  function After(r: Option<Room>, retention: int, run: Run): Option<Room>
    decreases |run|
  {
    if run == [] then r else After(Next(r, run[0].0, retention, run[0].1), retention, run[1..])
  }

  ghost predicate Monotone(from: int, run: Run)
    decreases |run|
  {
    run == [] || (from <= run[0].0 && Monotone(run[0].0, run[1..]))
  }

  /** A message or a verdict addressed to a request that expired but was not purged. */
  predicate HitsExpired(r: Option<Room>, now: int, op: Op) {
    && (op.MessageOp? || op.DecideOp?)
    && IsPending(r, op.id) && Expired(r.value.requests[op.id], now)
  }
}
