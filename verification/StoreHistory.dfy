/** What a room and its requests hold is what was sent and accepted, field by field. */
module StoreHistory {
  import opened Clock
  import opened Wrappers
  import opened StoreSpec
  import opened StoreTheorems
  import Codec
  import Records

  const SEVEN_DAYS := 7 * 24 * HOUR
  const ONE_DAY := 24 * HOUR

  // ----- which operations succeed -----

  /** Rejected requests are forgotten after a day, all others after seven. */
  predicate Forgotten(q: Request, now: int) {
    now > q.updated + (if q.status == Rejected then ONE_DAY else SEVEN_DAYS)
  }

  ghost function Waiting(r: Room, now: int): set<Digest> {
    set id | id in r.requests && r.requests[id].status == Pending && now <= r.requests[id].updated + SEVEN_DAYS
  }

  lemma WaitingIsLive(r: Room, now: int)
    ensures Waiting(r, now) == LiveIds(r, now)
  {}

  /** The pending list is of those requests and no others. */
  lemma ListedIff(r: Room, now: int, q: Request)
    ensures q in PendingSet(Some(r), now) <==> exists id :: id in Waiting(r, now) && r.requests[id] == q
  {
    WaitingIsLive(r, now);
  }

  /** An application: invalid keys and unknown rooms are turned away; an applicant with a
      request that is not forgotten is told about it, and keeps its name up to date while it
      waits; otherwise a new request is filed, unless ten are waiting. */
  lemma SubmitAnswers(r: Option<Room>, now: int, name: string, pub: string)
    ensures var ((r', a), id) := (Submit(r, now, name, pub), Sha256(pub));
      if !Codec.ValidPub(pub) then a == Failure(Invalid) && r' == r
      else if r.None? then a == Failure(NotFound) && r' == r
      else if id in r.value.requests && !Forgotten(r.value.requests[id], now) then
        && Has(r', id) && a == Success(r'.value.requests[id])
        && r'.value.requests[id].status == r.value.requests[id].status
      else if |Waiting(r.value, now)| >= 10 then a == Failure(TooMany) && r' == r
      else
        && Has(r', id) && a == Success(r'.value.requests[id])
        && r'.value.requests[id].status == Pending && r'.value.requests[id].messages == []
        && r'.value.requests[id].pub == pub && r'.value.requests[id].created == now
  {
    if r.Some? { WaitingIsLive(r.value, now); }
  }

  lemma MessageAnswers(r: Option<Room>, now: int, id: Digest, msgId: string, data: string)
    ensures var (r', a) := AddMessage(r, now, id, msgId, data);
      if !(1 <= |msgId| <= 64 && 1 <= |data| <= 4096) then a == Failure(Invalid) && r' == r
      else if !Has(r, id) || r.value.requests[id].status != Pending then a == Failure(NotFound) && r' == r
      else if |r.value.requests[id].messages| >= 20 then a == Failure(Full) && r' == r
      else a == Success(JoinMessage(msgId, data, now)) && Has(r', id)
  {}

  lemma VerdictAnswers(r: Option<Room>, now: int, id: Digest, v: Verdict)
    ensures var (r', a) := Decide(r, now, id, v);
      if v.Approve? && !(Codec.ValidPub(v.approverPub) && 1 <= |v.wrap| <= 4096) then a == Failure(Invalid) && r' == r
      else if !Has(r, id) || r.value.requests[id].status != Pending then a == Failure(NotFound) && r' == r
      else Has(r', id) && a == Success(r'.value.requests[id]) && r'.value.requests[id].status != Pending
  {}

  // ----- one request, over a run that neither removes nor replaces it -----

  predicate Took(r: Option<Room>, now: int, retention: int, op: Op) {
    match Apply(r, now, retention, op).1
    case Answered(a) => a.Success?
    case Posted(a) => a.Success?
    case _ => false
  }

  /** The operation concerns this request and succeeds. */
  predicate TookFor(r: Option<Room>, now: int, retention: int, op: Op, id: Digest) {
    && Took(r, now, retention, op)
    && match op
       case SubmitOp(_, pub) => Sha256(pub) == id
       case MessageOp(i, _, _) => i == id
       case DecideOp(i, _) => i == id
       case _ => false
  }

  /** The messages for this request that were answered with success. */
  ghost function Letters(r: Option<Room>, retention: int, run: Run, id: Digest): seq<JoinMessage>
    decreases |run|
  {
    if run == [] then [] else
      var (now, op) := run[0];
      (if op.MessageOp? && TookFor(r, now, retention, op, id) then [JoinMessage(op.msgId, op.data, now)] else [])
      + Letters(Next(r, now, retention, op), retention, run[1..], id)
  }

  /** When something last succeeded for this request. */
  ghost function LastTouch(r: Option<Room>, retention: int, run: Run, id: Digest, from: int): int
    decreases |run|
  {
    if run == [] then from else
      var (now, op) := run[0];
      LastTouch(Next(r, now, retention, op), retention, run[1..], id, if TookFor(r, now, retention, op, id) then now else from)
  }

  /** The verdict that was answered with success. */
  ghost function Ruling(r: Option<Room>, retention: int, run: Run, id: Digest, from: Option<Verdict>): Option<Verdict>
    decreases |run|
  {
    if run == [] then from else
      var (now, op) := run[0];
      Ruling(Next(r, now, retention, op), retention, run[1..], id,
             if op.DecideOp? && TookFor(r, now, retention, op, id) then Some(op.verdict) else from)
  }

  /** The name last given while there was no verdict. */
  ghost function LastName(r: Option<Room>, retention: int, run: Run, id: Digest, from: string): string
    decreases |run|
  {
    if run == [] then from else
      var (now, op) := run[0];
      LastName(Next(r, now, retention, op), retention, run[1..], id,
               if op.SubmitOp? && TookFor(r, now, retention, op, id) && r.Some? && id in r.value.requests
                  && r.value.requests[id].status == Pending
               then NameShown(op.name) else from)
  }

  function NameShown(name: string): string {
    if name == "" then "?" else if |name| <= 32 then name else name[..32]
  }

  /** A request's verdict, as its fields tell it. */
  function RuledBy(q: Request): Option<Verdict> {
    match q.status
    case Pending => None
    case Approved => Some(Approve(q.approverPub, q.wrap))
    case Rejected => Some(Reject)
  }

  /** What request q became, given the messages that came, the time of the last success, the
      verdict and the name. */
  predicate Became(q: Request, q': Request, ms: seq<JoinMessage>, touch: int, ruling: Option<Verdict>, name: string) {
    && q'.id == q.id && q'.pub == q.pub && q'.created == q.created
    && q'.messages == q.messages + ms && q'.updated == touch && RuledBy(q') == ruling && q'.name == name
  }

  lemma StepTells(r: Option<Room>, now: int, retention: int, op: Op, id: Digest)
    requires GoodRoom(r) && Has(r, id) && Has(Next(r, now, retention, op), id) && !Replaces(r, now, op, id)
    ensures var (q, took) := (r.value.requests[id], TookFor(r, now, retention, op, id));
      Became(q, Next(r, now, retention, op).value.requests[id],
             if op.MessageOp? && took then [JoinMessage(op.msgId, op.data, now)] else [],
             if took then now else q.updated,
             if op.DecideOp? && took then Some(op.verdict) else RuledBy(q),
             if op.SubmitOp? && took && q.status == Pending then NameShown(op.name) else q.name)
  {
    assert r.value.requests[id].messages + [] == r.value.requests[id].messages;
  }

  lemma BecameTwice(q: Request, q1: Request, q2: Request, ms: seq<JoinMessage>, more: seq<JoinMessage>,
                    t1: int, t2: int, v1: Option<Verdict>, v2: Option<Verdict>, n1: string, n2: string)
    requires Became(q, q1, ms, t1, v1, n1) && Became(q1, q2, more, t2, v2, n2)
    ensures Became(q, q2, ms + more, t2, v2, n2)
  {
    assert q.messages + (ms + more) == (q.messages + ms) + more;
  }

  /** Main theorem: at the end of a run the request holds, and holds only, what the
      operations on it that succeeded brought: the messages with their ids, texts and times,
      in order and each once, the verdict with its key and wrap, the name last given while it
      was pending, and the time of the last success. */
  lemma {:induction false} RequestIsItsHistory(r: Option<Room>, retention: int, run: Run, id: Digest)
    requires GoodRoom(r) && Keeps(r, retention, run, id)
    ensures Has(After(r, retention, run), id)
    ensures var q := r.value.requests[id];
      Became(q, After(r, retention, run).value.requests[id], Letters(r, retention, run, id),
             LastTouch(r, retention, run, id, q.updated), Ruling(r, retention, run, id, RuledBy(q)),
             LastName(r, retention, run, id, q.name))
    decreases |run|
  {
    if run != [] {
      var (now, op) := run[0];
      var q, took := r.value.requests[id], TookFor(r, now, retention, op, id);
      var next := Next(r, now, retention, op);
      var q1 := next.value.requests[id];
      var ms := if op.MessageOp? && took then [JoinMessage(op.msgId, op.data, now)] else [];
      StepTells(r, now, retention, op, id);
      StepKeepsGood(r, now, retention, op);
      RequestIsItsHistory(next, retention, run[1..], id);
      BecameTwice(q, q1, After(next, retention, run[1..]).value.requests[id], ms, Letters(next, retention, run[1..], id),
                  q1.updated, LastTouch(next, retention, run[1..], id, q1.updated),
                  RuledBy(q1), Ruling(next, retention, run[1..], id, RuledBy(q1)),
                  q1.name, LastName(next, retention, run[1..], id, q1.name));
    }
  }

  /** A new request holds the name and key it was filed with, and nothing else yet. */
  lemma FiledAs(r: Option<Room>, now: int, name: string, pub: string)
    requires Codec.ValidPub(pub) && r.Some? && |LiveIds(r.value, now)| < 10
    requires Sha256(pub) !in r.value.requests || Forgotten(r.value.requests[Sha256(pub)], now)
    ensures Submit(r, now, name, pub).0 == Some(r.value.(requests := r.value.requests[Sha256(pub) :=
      Request(Sha256(pub), NameShown(name), pub, Pending, now, now, "", "", [])]))
  {}

  // ----- the room itself -----

  /** The inbox key first registered: of the claims accepted, the first with a valid one. */
  ghost function FirstInbox(r: Option<Room>, retention: int, run: Run, from: string): string
    decreases |run|
  {
    if run == [] then from else
      var (now, op) := run[0];
      FirstInbox(Next(r, now, retention, op), retention, run[1..],
                 if op.ClaimOp? && !op.create && from == "" && Codec.ValidPub(op.inboxPub) then op.inboxPub else from)
  }

  ghost function LastClaim(r: Option<Room>, retention: int, run: Run, from: int): int
    decreases |run|
  {
    if run == [] then from else
      var (now, op) := run[0];
      LastClaim(Next(r, now, retention, op), retention, run[1..], if op.ClaimOp? && !op.create then now else from)
  }

  /** The room is never purged during the run. */
  ghost predicate Stays(r: Option<Room>, retention: int, run: Run)
    decreases |run|
  {
    r.Some? && (run == [] || Stays(Next(r, run[0].0, retention, run[0].1), retention, run[1..]))
  }

  /** A room keeps its age and its first inbox key, and was active when last claimed; no
      other operation touches these, and a claim touches no request. */
  lemma {:induction false} RoomIsItsHistory(r: Option<Room>, retention: int, run: Run)
    requires Stays(r, retention, run)
    ensures var r' := After(r, retention, run);
      && r'.Some? && r'.value.created == r.value.created
      && r'.value.inboxPub == FirstInbox(r, retention, run, r.value.inboxPub)
      && r'.value.lastActive == LastClaim(r, retention, run, r.value.lastActive)
    decreases |run|
  {
    if run != [] {
      EmptyIsNoKey();
      RoomIsItsHistory(Next(r, run[0].0, retention, run[0].1), retention, run[1..]);
    }
  }

  /** Claims: the first creates the room, whoever makes it; later ones are refused exactly
      if they ask to create it. */
  lemma ClaimAnswers(r: Option<Room>, now: int, create: bool, inboxPub: string)
    ensures var (r', ok) := Claim(r, now, create, inboxPub);
      && ok == (r.None? || !create) && r'.Some?
      && (r.None? ==> r'.value == Room(now, now, if Codec.ValidPub(inboxPub) then inboxPub else "", map[]))
      && (r.Some? ==> r'.value.requests == r.value.requests && (!ok ==> r' == r))
  {
    EmptyIsNoKey();
  }

  /** Only long silence ends a room, and never if rooms are kept for ever. */
  lemma PurgeEnds(r: Room, now: int, retention: int)
    ensures Purge(Some(r), now, retention).None? <==> retention > 0 && now > r.lastActive + retention
    ensures Purge(Some(r), now, retention).Some? ==>
      Purge(Some(r), now, retention).value == r.(requests :=
        map id | id in r.requests && !Forgotten(r.requests[id], now) :: r.requests[id])
  {}
}
