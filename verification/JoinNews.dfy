/** Who learns what from a join message: for each kind, every message that every connection
    gains, with its contents and in its order. */
module JoinNews {
  import opened Wrappers
  import opened StoreSpec
  import opened Wire
  import opened HubSpec
  import opened JoinSpec
  import opened JoinDesk

  // ----- what one action sends -----

  /** What line i gains from the action, which connection `from` carries out. */
  function Part(d: Desk, room: string, from: Id, a: Action, list: seq<Request>, i: Id): seq<Msg>
    requires i in d.lines
  {
    var here := d.lines[i].room == room;
    match a
    case ClaimReply(ok) => if i == from then [ClaimResult(ok, if ok then list else [], if ok then InboxPub(d.held) else "")] else []
    case StatusReply(q) => if i == from then [JoinStatus(Success(q), InboxPub(d.held))] else []
    case Broadcast => if here then [JoinRequests(list, InboxPub(d.held))] else []
    case Post(m) => if i == from then [m] else []
    case ToAll(m) => if here then [m] else []
    case Decided(q) => if here && d.lines[i].reqID == Some(q.id) then [JoinStatus(Success(q), "")] else []
    case Mark(_) => []
    case Finish(_) => []
  }

  lemma DoSends(d: Desk, room: string, from: Id, a: Action, list: seq<Request>, i: Id)
    requires from in d.lines && i in d.lines
    ensures var l' := Do(d, room, from, a, list).lines[i];
      && Gains(d.lines[i], l', Part(d, room, from, a, list, i))
      && l'.reqID == (if a.Mark? && i == from then Some(a.req) else d.lines[i].reqID)
  {
    match a
    case ClaimReply(ok) => SentOnce(d.lines, {from}, AnswerMsg(d.held, ok, list), i);
    case StatusReply(q) => SentOnce(d.lines, {from}, JoinStatus(Success(q), InboxPub(d.held)), i);
    case Broadcast => SentOnce(d.lines, Members(d.lines, room), RequestsMsg(d.held, list), i);
    case Post(m) => SentOnce(d.lines, {from}, m, i);
    case ToAll(m) => SentOnce(d.lines, Members(d.lines, room), m, i);
    case Decided(q) => SentOnce(d.lines, Applicants(d.lines, room, q.id), JoinStatus(Success(q), ""), i);
    case Mark(_) => assert d.lines[i].queue + [] == d.lines[i].queue;
    case Finish(_) => assert d.lines[i].queue + [] == d.lines[i].queue;
  }

  // ----- what a message sends -----

  /** Line i gained these messages, and is marked with this request. */
  ghost predicate Got(d: Desk, d2: Desk, i: Id, ms: seq<Msg>, mark: Option<Digest>) {
    i in d.lines && i in d2.lines && Gains(d.lines[i], d2.lines[i], ms) && d2.lines[i].reqID == mark
  }

  function ToOne(i: Id, from: Id, m: Msg): seq<Msg> { if i == from then [m] else [] }

  function ToThose(here: bool, m: Msg): seq<Msg> { if here then [m] else [] }

  /** A claim is answered to its sender, with the waiting requests if it is accepted; if the
      room just got its first inbox key, everyone in it is told. */
  ghost predicate ClaimTold(d: Desk, d2: Desk, room: string, from: Id, create: bool, inboxPub: string, now: int,
                            lists: seq<seq<Request>>)
  {
    var ok := d.held.None? || !create;
    && d2.held.Some? && lists != []
    && var inbox := d2.held.value.inboxPub;
    && var news := ok && !create && (d.held.None? || d.held.value.inboxPub == "") && inbox != "";
    && (ok ==> IsPendingList(lists[0], d2.held, now))
    && d2.held == Claim(d.held, now, create, inboxPub).0
    && (news ==> |lists| == 2 && IsPendingList(lists[1], d2.held, now))
    && forall i :: i in d.lines ==>
      Got(d, d2, i,
          ToOne(i, from, ClaimResult(ok, if ok then lists[0] else [], if ok then inbox else ""))
            + ToThose(news && d.lines[i].room == room, JoinRequests(if news then lists[1] else [], inbox)),
          d.lines[i].reqID)
  }

  /** An applicant is told how its request stands, or why there is none; while the request
      waits, everyone in the room is sent a list with it. */
  ghost predicate AskTold(d: Desk, d2: Desk, room: string, from: Id, name: string, pub: string, now: int,
                          lists: seq<seq<Request>>) {
    d2.held == Submit(d.held, now, name, pub).0 &&
    match Submit(d.held, now, name, pub).1
    case Failure(e) => forall i :: i in d.lines ==>
      Got(d, d2, i, ToOne(i, from, JoinStatus(Failure(e), "")), d.lines[i].reqID)
    case Success(q) =>
      && d2.held.Some? && Sha256(pub) in d2.held.value.requests && d2.held.value.requests[Sha256(pub)] == q
      && var inbox := d2.held.value.inboxPub;
      && (q.status == Pending ==> |lists| == 3 && q in lists[2] && IsPendingList(lists[2], d2.held, now))
      && forall i :: i in d.lines ==>
        Got(d, d2, i,
            ToOne(i, from, JoinStatus(Success(q), inbox))
              + ToThose(q.status == Pending && d.lines[i].room == room,
                        JoinRequests(if q.status == Pending then lists[2] else [], inbox)),
            if i == from then Some(q.id) else d.lines[i].reqID)
  }

  /** A verdict of a member reaches every connection in the room that asked with this request,
      and then everyone in the room gets a list without it; a verdict of an applicant, or one
      that is not accepted, reaches nobody. */
  ghost predicate VerdictTold(d: Desk, d2: Desk, room: string, from: Id, req: Digest, v: Verdict, now: int,
                              lists: seq<seq<Request>>)
    requires from in d.lines
  {
    var (r, a) := Decide(d.held, now, req, v);
    if d.lines[from].reqID.None? && a.Success? then
      && d2.held == r
      && d2.held.Some? && req in d2.held.value.requests && d2.held.value.requests[req] == a.value
      && |lists| == 2 && a.value !in lists[1] && IsPendingList(lists[1], d2.held, now)
      && forall i :: i in d.lines ==>
        Got(d, d2, i,
            ToThose(d.lines[i].room == room && d.lines[i].reqID == Some(a.value.id), JoinStatus(Success(a.value), ""))
              + ToThose(d.lines[i].room == room, JoinRequests(lists[1], d2.held.value.inboxPub)),
            d.lines[i].reqID)
    else d2.held == d.held && forall i :: i in d.lines ==> Got(d, d2, i, [], d.lines[i].reqID)
  }

  /** A message on a request, from a member or its applicant, reaches everyone in the room, or
      the error its sender; from another applicant it reaches nobody. */
  ghost predicate PostTold(d: Desk, d2: Desk, room: string, from: Id, req: Digest, msgId: string, data: string, now: int)
    requires from in d.lines
  {
    if d.lines[from].reqID.Some? && d.lines[from].reqID != Some(req)
    then d2.held == d.held && forall i :: i in d.lines ==> Got(d, d2, i, [], d.lines[i].reqID)
    else d2.held == AddMessage(d.held, now, req, msgId, data).0 && match AddMessage(d.held, now, req, msgId, data).1
      case Failure(e) => forall i :: i in d.lines ==>
        Got(d, d2, i, ToOne(i, from, JoinPostError(req, e)), d.lines[i].reqID)
      case Success(_) => forall i :: i in d.lines ==>
        Got(d, d2, i, ToThose(d.lines[i].room == room, JoinPost(req, JoinMessage(msgId, data, now))), d.lines[i].reqID)
  }

  /** An applicant that has its key is one no longer, its approved request is gone, and nobody
      is told. */
  ghost predicate DoneTold(d: Desk, d2: Desk, from: Id, req: Digest)
    requires from in d.lines
  {
    var mine := d.lines[from].reqID == Some(req);
    && (forall i :: i in d.lines ==>
          Got(d, d2, i, [], if i == from && mine then None else d.lines[i].reqID))
    && d2.held == if mine && d.held.Some? && req in d.held.value.requests && d.held.value.requests[req].status == Approved
                  then Some(d.held.value.(requests := d.held.value.requests - {req})) else d.held
  }

  ghost predicate Told(d: Desk, d2: Desk, room: string, from: Id, u: Up, now: int, lists: seq<seq<Request>>)
  {
    && from in d.lines && d2.lines.Keys == d.lines.Keys
    && match u
      case ClaimRoom(create, inboxPub) => ClaimTold(d, d2, room, from, create, inboxPub, now, lists)
      case AskToJoin(name, pub) => AskTold(d, d2, room, from, name, pub, now, lists)
      case ApproveJoin(req, pub, wrap) => VerdictTold(d, d2, room, from, req, Approve(pub, wrap), now, lists)
      case RejectJoin(req) => VerdictTold(d, d2, room, from, req, Reject, now, lists)
      case PostToJoin(req, msgId, data) => PostTold(d, d2, room, from, req, msgId, data, now)
      case JoinDone(req) => DoneTold(d, d2, from, req)
      case _ => true
  }

  // ----- the proofs, one kind at a time -----

  lemma NothingGained(d: Desk, i: Id)
    requires i in d.lines
    ensures Got(d, d, i, [], d.lines[i].reqID)
  {
    assert d.lines[i].queue + [] == d.lines[i].queue;
  }

  lemma OneSent(d: Desk, d2: Desk, room: string, from: Id, a: Action, list: seq<Request>)
    requires from in d.lines && d2 == DoAll(d, room, from, [a], [list]) && !a.Mark?
    ensures d2.lines.Keys == d.lines.Keys
    ensures forall i :: i in d.lines ==> Got(d, d2, i, Part(d, room, from, a, list, i), d.lines[i].reqID)
  {
    DoOne(d, room, from, a, list);
    DoKeepsLines(d, room, from, a, list);
    forall i | i in d.lines ensures Got(d, d2, i, Part(d, room, from, a, list, i), d.lines[i].reqID) {
      DoSends(d, room, from, a, list, i);
    }
  }

  lemma TwoSent(d: Desk, d2: Desk, room: string, from: Id, a: Action, la: seq<Request>, b: Action, lb: seq<Request>)
    requires from in d.lines && d2 == DoAll(d, room, from, [a, b], [la, lb]) && !a.Mark? && !a.Finish? && !b.Mark?
    ensures d2.lines.Keys == d.lines.Keys
    ensures forall i :: i in d.lines ==>
      Got(d, d2, i, Part(d, room, from, a, la, i) + Part(d, room, from, b, lb, i), d.lines[i].reqID)
  {
    var d1 := Do(d, room, from, a, la);
    DoTwo(d, d1, room, from, a, la, b, lb);
    DoKeepsLines(d, room, from, a, la);
    DoKeepsLines(d1, room, from, b, lb);
    forall i | i in d.lines
      ensures Got(d, d2, i, Part(d, room, from, a, la, i) + Part(d, room, from, b, lb, i), d.lines[i].reqID)
    {
      DoSends(d, room, from, a, la, i);
      DoSends(d1, room, from, b, lb, i);
      SamePart(d, d1, room, from, b, lb, i);
      GainsTwice(d.lines[i], d1.lines[i], d2.lines[i], Part(d, room, from, a, la, i), Part(d, room, from, b, lb, i));
    }
  }

  /** What an action sends depends on the room and on how the line is marked, no more. */
  lemma SamePart(d: Desk, d1: Desk, room: string, from: Id, a: Action, list: seq<Request>, i: Id)
    requires i in d.lines && i in d1.lines && d1.held == d.held
    requires d1.lines[i].room == d.lines[i].room && d1.lines[i].reqID == d.lines[i].reqID
    ensures Part(d1, room, from, a, list, i) == Part(d, room, from, a, list, i)
  {}

  lemma ClaimIsTold(d: Desk, d2: Desk, room: string, from: Id, create: bool, inboxPub: string, now: int,
                    lists: seq<seq<Request>>)
    requires Handles(d, d2, room, from, ClaimRoom(create, inboxPub), now, lists) && d.lines[from].room == room
    ensures ClaimTold(d, d2, room, from, create, inboxPub, now, lists) && d2.lines.Keys == d.lines.Keys
  {
    var e := Handle(d.held, d.lines[from].reqID, ClaimRoom(create, inboxPub), now);
    var d0 := Desk(e.held, d.lines);
    var ok := d.held.None? || !create;
    assert d.lines[from := d.lines[from].(reqID := e.reqID)] == d.lines;
    if |e.todo| == 2 {
      assert e.todo == [ClaimReply(ok), Broadcast] && lists == [lists[0], lists[1]];
      TwoSent(d0, d2, room, from, ClaimReply(ok), lists[0], Broadcast, lists[1]);
      TwoHeld(d0, d2, room, from, ClaimReply(ok), lists[0], Broadcast, lists[1]);
    } else {
      assert e.todo == [ClaimReply(ok)] && lists == [lists[0]];
      OneSent(d0, d2, room, from, ClaimReply(ok), lists[0]);
      DoOne(d0, room, from, ClaimReply(ok), lists[0]);
      forall i | i in d.lines ensures Part(d0, room, from, ClaimReply(ok), lists[0], i) + [] == Part(d0, room, from, ClaimReply(ok), lists[0], i) {}
    }
  }

  lemma TwoHeld(d: Desk, d2: Desk, room: string, from: Id, a: Action, la: seq<Request>, b: Action, lb: seq<Request>)
    requires from in d.lines && d2 == DoAll(d, room, from, [a, b], [la, lb]) && !a.Finish? && !b.Finish?
    ensures d2.held == d.held
  {
    DoTwo(d, Do(d, room, from, a, la), room, from, a, la, b, lb);
  }

  lemma AskIsTold(d: Desk, d2: Desk, room: string, from: Id, name: string, pub: string, now: int, lists: seq<seq<Request>>)
    requires Handles(d, d2, room, from, AskToJoin(name, pub), now, lists) && d.lines[from].room == room
    ensures AskTold(d, d2, room, from, name, pub, now, lists) && d2.lines.Keys == d.lines.Keys
  {
    var (r, a) := Submit(d.held, now, name, pub);
    var d0 := Desk(r, d.lines);
    AskHandled(d, d2, room, from, name, pub, now, lists);
    match a
    case Failure(e) => RefusedIsTold(d, d0, d2, room, from, JoinStatus(Failure(e), ""), lists);
    case Success(q) =>
      AcceptedIsTold(d, d0, d2, room, from, q, lists);
      SubmittedIs(d.held, now, name, pub);
      if q.status == Pending { QuotedHasIt(r, now, Sha256(pub), lists); }
  }

  lemma AskHandled(d: Desk, d2: Desk, room: string, from: Id, name: string, pub: string, now: int, lists: seq<seq<Request>>)
    requires Handles(d, d2, room, from, AskToJoin(name, pub), now, lists)
    ensures var (r, a) := Submit(d.held, now, name, pub);
      && |lists| == |AfterSubmit(a)| && d2 == DoAll(Desk(r, d.lines), room, from, AfterSubmit(a), lists)
      && (a.Success? && a.value.status == Pending ==> IsPendingList(lists[2], r, now))
  {
    var (r, a) := Submit(d.held, now, name, pub);
    assert d.lines[from := d.lines[from].(reqID := d.lines[from].reqID)] == d.lines;
    if a.Success? && a.value.status == Pending { assert Quoted(AfterSubmit(a)[2], lists[2], r, now); }
  }

  lemma RefusedIsTold(d: Desk, d0: Desk, d2: Desk, room: string, from: Id, m: Msg, lists: seq<seq<Request>>)
    requires from in d0.lines && |lists| == 1 && d2 == DoAll(d0, room, from, [Post(m)], lists) && d.lines == d0.lines
    ensures d2.lines.Keys == d0.lines.Keys
    ensures forall i :: i in d.lines ==> Got(d, d2, i, ToOne(i, from, m), d.lines[i].reqID)
  {
    assert lists == [lists[0]];
    OneSent(d0, d2, room, from, Post(m), lists[0]);
    forall i | i in d.lines ensures Got(d, d2, i, ToOne(i, from, m), d.lines[i].reqID) {
      assert Got(d0, d2, i, Part(d0, room, from, Post(m), lists[0], i), d0.lines[i].reqID);
    }
  }

  lemma SubmittedIs(held: Option<Room>, now: int, name: string, pub: string)
    requires Submit(held, now, name, pub).1.Success?
    ensures var (r, a) := Submit(held, now, name, pub);
      && r.Some? && Sha256(pub) in r.value.requests && r.value.requests[Sha256(pub)] == a.value
      && a.value.updated == now
  {}

  lemma QuotedHasIt(r: Option<Room>, now: int, id: Digest, lists: seq<seq<Request>>)
    requires r.Some? && |lists| == 3 && id in r.value.requests && IsPendingList(lists[2], r, now)
    requires r.value.requests[id].status == Pending && r.value.requests[id].updated == now
    ensures r.value.requests[id] in lists[2]
  {
    assert id in LiveIds(r.value, now);
  }

  lemma AcceptedIsTold(d: Desk, d0: Desk, d2: Desk, room: string, from: Id, q: Request, lists: seq<seq<Request>>)
    requires from in d0.lines && |lists| == |AfterSubmit(Success(q))| && d.lines == d0.lines
    requires d2 == DoAll(d0, room, from, AfterSubmit(Success(q)), lists)
    ensures d2.lines.Keys == d0.lines.Keys && d2.held == d0.held
    ensures forall i :: i in d.lines ==>
      Got(d, d2, i,
          ToOne(i, from, JoinStatus(Success(q), InboxPub(d0.held)))
            + ToThose(q.status == Pending && d.lines[i].room == room,
                      JoinRequests(if q.status == Pending then lists[2] else [], InboxPub(d0.held))),
          if i == from then Some(q.id) else d.lines[i].reqID)
  {
    var todo := AfterSubmit(Success(q));
    var d1 := Do(d0, room, from, Mark(q.id), lists[0]);
    DoKeepsLines(d0, room, from, Mark(q.id), lists[0]);
    assert d2 == DoAll(d1, room, from, todo[1..], lists[1..]);
    if q.status == Pending {
      assert todo[1..] == [StatusReply(q), Broadcast] && lists[1..] == [lists[1], lists[2]];
      TwoSent(d1, d2, room, from, StatusReply(q), lists[1], Broadcast, lists[2]);
      TwoHeld(d1, d2, room, from, StatusReply(q), lists[1], Broadcast, lists[2]);
    } else {
      assert todo[1..] == [StatusReply(q)] && lists[1..] == [lists[1]];
      OneSent(d1, d2, room, from, StatusReply(q), lists[1]);
      DoOne(d1, room, from, StatusReply(q), lists[1]);
      forall i | i in d0.lines ensures Part(d1, room, from, StatusReply(q), lists[1], i) + [] == Part(d1, room, from, StatusReply(q), lists[1], i) {}
    }
    assert forall i :: i in d0.lines ==> d1.lines[i] == d0.lines[i].(reqID := d1.lines[i].reqID);
  }

  lemma VerdictIsTold(d: Desk, d2: Desk, room: string, from: Id, req: Digest, v: Verdict, now: int, lists: seq<seq<Request>>)
    requires Handles(d, d2, room, from, Asked(req, v), now, lists)
    ensures VerdictTold(d, d2, room, from, req, v, now, lists) && d2.lines.Keys == d.lines.Keys
  {
    var e := Handle(d.held, d.lines[from].reqID, Asked(req, v), now);
    var (r, a) := Decide(d.held, now, req, v);
    assert d.lines[from := d.lines[from].(reqID := e.reqID)] == d.lines;
    var d0 := Desk(e.held, d.lines);
    if d.lines[from].reqID.None? && a.Success? {
      var q := a.value;
      assert e.todo == [Decided(q), Broadcast] && lists == [lists[0], lists[1]];
      TwoSent(d0, d2, room, from, Decided(q), lists[0], Broadcast, lists[1]);
      TwoHeld(d0, d2, room, from, Decided(q), lists[0], Broadcast, lists[1]);
      assert Quoted(e.todo[1], lists[1], e.held, now);
    } else {
      assert e.todo == [] && lists == [];
      forall i | i in d.lines ensures Got(d, d2, i, [], d.lines[i].reqID) { NothingGained(d0, i); }
    }
  }

  lemma PostIsTold(d: Desk, d2: Desk, room: string, from: Id, req: Digest, msgId: string, data: string, now: int,
                   lists: seq<seq<Request>>)
    requires Handles(d, d2, room, from, PostToJoin(req, msgId, data), now, lists)
    ensures PostTold(d, d2, room, from, req, msgId, data, now) && d2.lines.Keys == d.lines.Keys
  {
    var e := Handle(d.held, d.lines[from].reqID, PostToJoin(req, msgId, data), now);
    assert d.lines[from := d.lines[from].(reqID := e.reqID)] == d.lines;
    var d0 := Desk(e.held, d.lines);
    if e.todo == [] {
      assert lists == [];
      forall i | i in d.lines ensures Got(d, d2, i, [], d.lines[i].reqID) { NothingGained(d0, i); }
    } else {
      assert e.todo == [e.todo[0]] && lists == [lists[0]];
      OneSent(d0, d2, room, from, e.todo[0], lists[0]);
    }
  }

  lemma DoneIsTold(d: Desk, d2: Desk, room: string, from: Id, req: Digest, now: int, lists: seq<seq<Request>>)
    requires Handles(d, d2, room, from, JoinDone(req), now, lists)
    ensures DoneTold(d, d2, from, req) && d2.lines.Keys == d.lines.Keys
  {
    var e := Handle(d.held, d.lines[from].reqID, JoinDone(req), now);
    var d0 := Desk(e.held, d.lines[from := d.lines[from].(reqID := e.reqID)]);
    if e.todo == [] {
      assert lists == [];
      forall i | i in d.lines ensures Got(d, d2, i, [], d0.lines[i].reqID) { NothingGained(d0, i); }
    } else {
      assert e.todo == [Finish(req)] && lists == [lists[0]];
      OneSent(d0, d2, room, from, Finish(req), lists[0]);
    }
  }

  /** Main result: whoever handles a join message tells everyone concerned, and no one else,
      exactly this. */
  lemma NewsIsTold(d: Desk, d2: Desk, room: string, from: Id, u: Up, now: int, lists: seq<seq<Request>>)
    requires Handles(d, d2, room, from, u, now, lists) && d.lines[from].room == room
    ensures Told(d, d2, room, from, u, now, lists)
  {
    match u
    case ClaimRoom(create, inboxPub) => ClaimIsTold(d, d2, room, from, create, inboxPub, now, lists);
    case AskToJoin(name, pub) => AskIsTold(d, d2, room, from, name, pub, now, lists);
    case ApproveJoin(req, pub, wrap) => VerdictIsTold(d, d2, room, from, req, Approve(pub, wrap), now, lists);
    case RejectJoin(req) => VerdictIsTold(d, d2, room, from, req, Reject, now, lists);
    case PostToJoin(req, msgId, data) => PostIsTold(d, d2, room, from, req, msgId, data, now, lists);
    case JoinDone(req) => DoneIsTold(d, d2, room, from, req, now, lists);
  }
}
