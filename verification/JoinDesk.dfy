/** What handling a join message comes to: the change to the room, and who is sent what. */
module JoinDesk {
  import opened Wrappers
  import opened StoreSpec
  import opened Wire
  import opened HubSpec
  import opened JoinSpec

  /** Server state as the join protocol sees it: what the store holds of one room, and the
      connections. */
  datatype Desk = Desk(held: Option<Room>, lines: Lines)

  /** Carrying out one action of connection id, quoting this list of pending requests. */
  function Do(d: Desk, room: string, id: Id, a: Action, list: seq<Request>): Desk
    requires id in d.lines
  {
    match a
    case ClaimReply(ok) => d.(lines := Send(d.lines, {id}, AnswerMsg(d.held, ok, list)))
    case StatusReply(q) => d.(lines := Send(d.lines, {id}, JoinStatus(Success(q), InboxPub(d.held))))
    case Broadcast => d.(lines := Send(d.lines, Members(d.lines, room), RequestsMsg(d.held, list)))
    case Post(m) => d.(lines := Send(d.lines, {id}, m))
    case ToAll(m) => d.(lines := Send(d.lines, Members(d.lines, room), m))
    case Decided(q) => d.(lines := Send(d.lines, Applicants(d.lines, room, q.id), JoinStatus(Success(q), "")))
    case Mark(req) => d.(lines := d.lines[id := d.lines[id].(reqID := Some(req))])
    case Finish(req) => d.(held := StoreSpec.Done(d.held, req))
  }

  lemma DoKeepsLines(d: Desk, room: string, id: Id, a: Action, list: seq<Request>)
    requires id in d.lines
    ensures Do(d, room, id, a, list).lines.Keys == d.lines.Keys
  {}

  /** Carrying them out in order; lists says what each quotes. */
  function DoAll(d: Desk, room: string, id: Id, todo: seq<Action>, lists: seq<seq<Request>>): Desk
    requires id in d.lines && |lists| == |todo|
    decreases |todo|
  {
    if todo == [] then d
    else
      DoKeepsLines(d, room, id, todo[0], lists[0]);
      DoAll(Do(d, room, id, todo[0], lists[0]), room, id, todo[1..], lists[1..])
  }

  /** What handling a message comes to when nothing else happens meanwhile. */
  function Handled(d: Desk, room: string, id: Id, u: Up, now: int, lists: seq<seq<Request>>): Desk
    requires id in d.lines && !Forwarded(u)
    requires |lists| == |Handle(d.held, d.lines[id].reqID, u, now).todo|
  {
    var e := Handle(d.held, d.lines[id].reqID, u, now);
    DoAll(Desk(e.held, d.lines[id := d.lines[id].(reqID := e.reqID)]), room, id, e.todo, lists)
  }

  /** From d to d2 by handling u; the lists quoted to members are the pending requests. */
  ghost predicate Handles(d: Desk, d2: Desk, room: string, id: Id, u: Up, now: int, lists: seq<seq<Request>>) {
    && id in d.lines && !Forwarded(u)
    && var e := Handle(d.held, d.lines[id].reqID, u, now);
      && |lists| == |e.todo|
      && d2 == Handled(d, room, id, u, now, lists)
      && forall k :: 0 <= k < |lists| ==> Quoted(e.todo[k], lists[k], e.held, now)
  }

  ghost predicate Quoted(a: Action, list: seq<Request>, held: Option<Room>, now: int) {
    if a.Broadcast? || a == ClaimReply(true) then IsPendingList(list, held, now) else list == []
  }

  lemma DoNone(d: Desk, room: string, id: Id)
    requires id in d.lines
    ensures DoAll(d, room, id, [], []) == d
  {}

  lemma DoOne(d: Desk, room: string, id: Id, a: Action, list: seq<Request>)
    requires id in d.lines
    ensures DoAll(d, room, id, [a], [list]) == Do(d, room, id, a, list)
  {
    DoKeepsLines(d, room, id, a, list);
    assert [a][1..] == [] && [list][1..] == [];
  }

  lemma DoTwo(d: Desk, d1: Desk, room: string, id: Id, a: Action, la: seq<Request>, b: Action, lb: seq<Request>)
    requires id in d.lines && d1 == Do(d, room, id, a, la)
    ensures id in d1.lines && DoAll(d, room, id, [a, b], [la, lb]) == Do(d1, room, id, b, lb)
  {
    DoKeepsLines(d, room, id, a, la);
    assert [a, b][1..] == [b] && [la, lb][1..] == [lb];
    DoOne(d1, room, id, b, lb);
  }

  lemma DoThree(d: Desk, d1: Desk, d2: Desk, room: string, id: Id, a: Action, la: seq<Request>,
                b: Action, lb: seq<Request>, c: Action, lc: seq<Request>)
    requires id in d.lines && d1 == Do(d, room, id, a, la) && id in d1.lines && d2 == Do(d1, room, id, b, lb)
    ensures id in d2.lines && DoAll(d, room, id, [a, b, c], [la, lb, lc]) == Do(d2, room, id, c, lc)
  {
    DoKeepsLines(d1, room, id, b, lb);
    assert [a, b, c][1..] == [b, c] && [la, lb, lc][1..] == [lb, lc];
    DoTwo(d1, d2, room, id, b, lb, c, lc);
  }

  lemma ClaimNews(held: Option<Room>, r: Option<Room>, now: int, retention: int, create: bool, inboxPub: string, ok: bool)
    requires (r, Claimed(ok)) == Apply(held, now, retention, ClaimOp(create, inboxPub))
    ensures AfterClaim(held, create, inboxPub, now) ==
      (r, [ClaimReply(ok)] + (if ok && !create && InboxPub(held) == "" && InboxPub(r) != "" then [Broadcast] else []))
  {}

  function Asked(id: Digest, v: Verdict): Up {
    match v
    case Approve(pub, wrap) => ApproveJoin(id, pub, wrap)
    case Reject => RejectJoin(id)
  }

  lemma VerdictTaken(held: Option<Room>, r: Option<Room>, now: int, retention: int, id: Digest, v: Verdict, res: Result<Request>)
    requires (r, Answered(res)) == Apply(held, now, retention, DecideOp(id, v))
    ensures Handle(held, None, Asked(id, v), now) == Effect(r, None, AfterVerdict(res))
  {}

  lemma PostTaken(held: Option<Room>, r: Option<Room>, now: int, retention: int, reqID: Option<Digest>,
                  id: Digest, msgId: string, data: string, res: Result<JoinMessage>)
    requires (r, Posted(res)) == Apply(held, now, retention, MessageOp(id, msgId, data))
    requires reqID.None? || reqID == Some(id)
    ensures Handle(held, reqID, PostToJoin(id, msgId, data), now) == Effect(r, reqID, AfterPost(id, res))
  {}

  lemma PostQuotes(id: Digest, res: Result<JoinMessage>, lists: seq<seq<Request>>, held: Option<Room>, now: int)
    requires |lists| == |AfterPost(id, res)|
    requires forall k :: 0 <= k < |lists| ==> Quoted(AfterPost(id, res)[k], lists[k], held, 0)
    ensures forall k :: 0 <= k < |lists| ==> Quoted(AfterPost(id, res)[k], lists[k], held, now)
  {}

  /** Once the store was changed as prescribed and the actions carried out. */
  lemma IsHandled(d: Desk, d0: Desk, d2: Desk, room: string, id: Id, u: Up, now: int,
                  todo: seq<Action>, lists: seq<seq<Request>>)
    requires id in d.lines && !Forwarded(u) && |lists| == |todo|
    requires Handle(d.held, d.lines[id].reqID, u, now) == Effect(d0.held, d.lines[id].reqID, todo)
    requires d0.lines == d.lines && d2 == DoAll(d0, room, id, todo, lists)
    requires forall k :: 0 <= k < |lists| ==> Quoted(todo[k], lists[k], d0.held, now)
    ensures Handles(d, d2, room, id, u, now, lists)
  {
    assert d.lines[id := d.lines[id].(reqID := d.lines[id].reqID)] == d.lines;
  }

  lemma IsFinished(d: Desk, d0: Desk, d2: Desk, room: string, id: Id, req: Digest, now: int)
    requires id in d.lines && d.lines[id].reqID == Some(req)
    requires d0 == Desk(d.held, d.lines[id := d.lines[id].(reqID := None)])
    requires d2 == Do(d0, room, id, Finish(req), [])
    ensures Handles(d, d2, room, id, JoinDone(req), now, [[]])
  {
    DoOne(d0, room, id, Finish(req), []);
  }
}
