/** The join protocol on the server: each message from a browser changes the store, then
    is answered, and is told to others, through the hub. */
module Joining {
  import opened Wrappers
  import opened StoreSpec
  import opened Wire
  import opened HubSpec
  import opened JoinSpec
  import opened JoinDesk
  import opened JoinNews
  import Hub
  import Store

  class Server {
    const hub: Hub.Hub
    const store: Store.Store

    constructor (hub: Hub.Hub, store: Store.Store)
      ensures this.hub == hub && this.store == store
    {
      this.hub, this.store := hub, store;
    }

    ghost function Objects(): set<object>
      reads hub
    {
      {hub} + hub.peers.Values
    }

    ghost predicate Valid()
      reads hub, store, store.Repr
    {
      && hub.Valid() && store.Valid() && store.disk == store.View()
      && Objects() !! {store} + store.Repr
    }

    ghost function Held(room: string): Option<Room>
      requires Valid()
      reads hub, store, store.Repr
    {
      Store.Get(store.View(), Sha256(room))
    }

    /** The room and the connections as they are. */
    ghost function State(room: string): Desk
      requires Valid()
      reads hub, hub.peers.Values, store, store.Repr
    {
      Desk(Held(room), hub.View())
    }

    method Reply(c: Hub.Client, m: Msg)
      requires Valid() && c.id in hub.peers && hub.peers[c.id] == c
      modifies hub.peers.Values
      ensures Valid() && store.View() == old(store.View())
      ensures hub.View() == Send(old(hub.View()), {c.id}, m)
    {
      hub.EachNamed();
      hub.SendEach({c.id}, m);
    }

    method TellRoom(room: string, m: Msg)
      requires Valid()
      modifies hub.peers.Values
      ensures Valid() && store.View() == old(store.View())
      ensures hub.View() == Send(old(hub.View()), Members(old(hub.View()), room), m)
    {
      hub.ToRoom(room, m);
    }

    method TellApplicant(room: string, q: Digest, m: Msg)
      requires Valid()
      modifies hub.peers.Values
      ensures Valid() && store.View() == old(store.View())
      ensures hub.View() == Send(old(hub.View()), Applicants(old(hub.View()), room, q), m)
    {
      hub.ToApplicant(room, q, m);
    }

    /** Notes on the connection which request it submitted, or that it has none. */
    method File(c: Hub.Client, req: Option<Digest>)
      requires Valid() && c.id in hub.peers && hub.peers[c.id] == c
      modifies c
      ensures Valid() && store.View() == old(store.View())
      ensures hub.View() == old(hub.View())[c.id := old(hub.View())[c.id].(reqID := req)]
    {
      ghost var before := hub.View();
      hub.EachNamed();
      c.reqID := req;
      hub.LineIs(c.id, before, before[c.id].(reqID := req));
    }

    method InboxNow(room: string) returns (pub: string)
      requires Valid()
      ensures pub == InboxPub(Held(room))
      ensures Valid() && store.View() == old(store.View()) && hub.View() == old(hub.View())
    {
      pub := store.GetInboxPub(room);
    }

    method RequestsNow(room: string, now: int) returns (list: seq<Request>, m: Msg)
      requires Valid()
      ensures IsPendingList(list, Held(room), now) && m == RequestsMsg(Held(room), list)
    {
      list := store.Pending(room, now);
      var pub := InboxNow(room);
      m := JoinRequests(list, pub);
    }

    method AnswerNow(room: string, ok: bool, now: int) returns (list: seq<Request>, m: Msg)
      requires Valid()
      ensures if ok then IsPendingList(list, Held(room), now) else list == []
      ensures m == AnswerMsg(Held(room), ok, list)
    {
      if !ok { return [], ClaimResult(false, [], ""); }
      list := store.Pending(room, now);
      var pub := InboxNow(room);
      m := ClaimResult(true, list, pub);
    }

    // ----- the actions -----

    /** Action a of connection c was carried out, quoting list. */
    twostate predicate Did(c: Hub.Client, a: Action, list: seq<Request>, now: int)
      requires old(Valid()) && Valid() && c.id in old(hub.View())
      reads hub, hub.peers.Values, store, store.Repr
    {
      && State(c.room) == Do(old(State(c.room)), c.room, c.id, a, list)
      && Quoted(a, list, Held(c.room), now)
    }

    method AnswerClaim(c: Hub.Client, ok: bool, now: int) returns (list: seq<Request>)
      requires Valid() && c.id in hub.peers && hub.peers[c.id] == c
      modifies hub.peers.Values
      ensures Valid() && store.View() == old(store.View())
      ensures Did(c, ClaimReply(ok), list, now)
    {
      var m: Msg;
      list, m := AnswerNow(c.room, ok, now);
      Reply(c, m);
    }

    /** Sends the current pending list to everyone in the room. */
    method BroadcastRequests(c: Hub.Client, now: int) returns (list: seq<Request>)
      requires Valid() && c.id in hub.peers && hub.peers[c.id] == c
      modifies hub.peers.Values
      ensures Valid() && store.View() == old(store.View())
      ensures Did(c, Broadcast, list, now)
    {
      var m: Msg;
      list, m := RequestsNow(c.room, now);
      TellRoom(c.room, m);
    }

    method SendTo(c: Hub.Client, m: Msg)
      requires Valid() && c.id in hub.peers && hub.peers[c.id] == c
      modifies hub.peers.Values
      ensures Valid() && store.View() == old(store.View())
      ensures Did(c, Post(m), [], 0)
    {
      Reply(c, m);
    }

    method ReplyStatus(c: Hub.Client, q: Request)
      requires Valid() && c.id in hub.peers && hub.peers[c.id] == c
      modifies hub.peers.Values
      ensures Valid() && store.View() == old(store.View())
      ensures Did(c, StatusReply(q), [], 0)
    {
      var pub := InboxNow(c.room);
      Reply(c, JoinStatus(Success(q), pub));
    }

    method MarkRequest(c: Hub.Client, req: Digest)
      requires Valid() && c.id in hub.peers && hub.peers[c.id] == c
      modifies c
      ensures Valid() && store.View() == old(store.View())
      ensures Did(c, Mark(req), [], 0)
    {
      File(c, Some(req));
    }

    method TellDecision(c: Hub.Client, q: Request)
      requires Valid() && c.id in hub.peers && hub.peers[c.id] == c
      modifies hub.peers.Values
      ensures Valid() && store.View() == old(store.View())
      ensures Did(c, Decided(q), [], 0)
    {
      TellApplicant(c.room, q.id, JoinStatus(Success(q), ""));
    }

    method TellPost(c: Hub.Client, m: Msg)
      requires Valid() && c.id in hub.peers && hub.peers[c.id] == c
      modifies hub.peers.Values
      ensures Valid() && store.View() == old(store.View())
      ensures Did(c, ToAll(m), [], 0)
    {
      TellRoom(c.room, m);
    }

    // ----- the changes to the store -----

    /** One operation on this room; connections and other rooms stay as they are. */
    twostate predicate Took(room: string, now: int, op: Op, out: Out)
      requires old(Valid()) && Valid()
      reads hub, hub.peers.Values, store, store.Repr
    {
      && hub.View() == old(hub.View()) && hub.peers == old(hub.peers)
      && store.View() == Store.Put(old(store.View()), Sha256(room), Held(room))
      && (Held(room), out) == Apply(old(Held(room)), now, store.retention, op)
    }

    method TakeClaim(room: string, create: bool, inboxPub: string, now: int) returns (ok: bool)
      requires Valid()
      modifies store, store.Repr
      ensures Valid() && Took(room, now, ClaimOp(create, inboxPub), Claimed(ok))
    {
      ok := store.Claim(room, create, inboxPub, now);
    }

    method TakeSubmit(room: string, name: string, pub: string, now: int) returns (res: Result<Request>)
      requires Valid()
      modifies store, store.Repr
      ensures Valid() && Took(room, now, SubmitOp(name, pub), Answered(res))
    {
      res := store.Submit(room, name, pub, now);
    }

    method TakeVerdict(room: string, id: Digest, v: Verdict, now: int) returns (res: Result<Request>)
      requires Valid()
      modifies store, store.Repr
      ensures Valid() && Took(room, now, DecideOp(id, v), Answered(res))
    {
      res := store.Decide(room, id, v, now);
    }

    method TakePost(room: string, id: Digest, msgId: string, data: string, now: int) returns (res: Result<JoinMessage>)
      requires Valid()
      modifies store, store.Repr
      ensures Valid() && Took(room, now, MessageOp(id, msgId, data), Posted(res))
    {
      res := store.AddMessage(room, id, msgId, data, now);
    }

    method TakeDone(room: string, id: Digest)
      requires Valid()
      modifies store, store.Repr
      ensures Valid() && Took(room, 0, DoneOp(id), Silent)
    {
      store.Done(room, id);
    }

    // ----- the messages -----

    twostate predicate DidHandle(c: Hub.Client, u: Up, now: int, lists: seq<seq<Request>>)
      requires old(Valid()) && Valid()
      reads hub, hub.peers.Values, store, store.Repr
    {
      && Handles(old(State(c.room)), State(c.room), c.room, c.id, u, now, lists)
      && store.View() == Store.Put(old(store.View()), Sha256(c.room), Held(c.room))
    }

    /** todo was carried out for connection c. */
    twostate predicate DidAll(c: Hub.Client, todo: seq<Action>, lists: seq<seq<Request>>, now: int)
      requires old(Valid()) && Valid() && c.id in old(hub.View())
      reads hub, hub.peers.Values, store, store.Repr
    {
      && |lists| == |todo|
      && State(c.room) == DoAll(old(State(c.room)), c.room, c.id, todo, lists)
      && (forall k :: 0 <= k < |lists| ==> Quoted(todo[k], lists[k], Held(c.room), now))
    }

    method SendClaimResult(c: Hub.Client, ok: bool, news: bool, now: int) returns (lists: seq<seq<Request>>)
      requires Valid() && c.id in hub.peers && hub.peers[c.id] == c
      modifies hub.peers.Values
      ensures Valid() && store.View() == old(store.View())
      ensures DidAll(c, [ClaimReply(ok)] + (if news then [Broadcast] else []), lists, now)
    {
      ghost var d := State(c.room);
      var list := AnswerClaim(c, ok, now);
      ghost var d1 := State(c.room);
      lists := [list];
      if news {
        var more := BroadcastRequests(c, now);
        lists := [list, more];
        DoTwo(d, d1, c.room, c.id, ClaimReply(ok), list, Broadcast, more);
        assert [ClaimReply(ok)] + [Broadcast] == [ClaimReply(ok), Broadcast];
      } else {
        DoOne(d, c.room, c.id, ClaimReply(ok), list);
        assert [ClaimReply(ok)] + [] == [ClaimReply(ok)];
      }
    }

    method ClaimInStore(room: string, create: bool, inboxPub: string, now: int) returns (ok: bool, news: bool)
      requires Valid()
      modifies store, store.Repr
      ensures Valid() && Took(room, now, ClaimOp(create, inboxPub), Claimed(ok))
      ensures AfterClaim(old(Held(room)), create, inboxPub, now) ==
              (Held(room), [ClaimReply(ok)] + (if news then [Broadcast] else []))
    {
      var had := InboxNow(room);
      ok := TakeClaim(room, create, inboxPub, now);
      ClaimNews(old(Held(room)), Held(room), now, store.retention, create, inboxPub, ok);
      var has := InboxNow(room);
      news := ok && !create && had == "" && has != "";
    }

    method HandleClaim(c: Hub.Client, create: bool, inboxPub: string, now: int) returns (lists: seq<seq<Request>>)
      requires Valid() && c.id in hub.peers && hub.peers[c.id] == c
      modifies store, store.Repr, hub.peers.Values
      ensures Valid() && DidHandle(c, ClaimRoom(create, inboxPub), now, lists)
    {
      ghost var d := State(c.room);
      var ok, news := ClaimInStore(c.room, create, inboxPub, now);
      ghost var d0 := State(c.room);
      lists := SendClaimResult(c, ok, news, now);
      IsHandled(d, d0, State(c.room), c.room, c.id, ClaimRoom(create, inboxPub), now,
                [ClaimReply(ok)] + (if news then [Broadcast] else []), lists);
    }

    /** The applicant learns the state of its request, and members that it waits. */
    method SendSubmitted(c: Hub.Client, q: Request, now: int) returns (lists: seq<seq<Request>>)
      requires Valid() && c.id in hub.peers && hub.peers[c.id] == c
      modifies hub.peers.Values
      ensures Valid() && store.View() == old(store.View())
      ensures DidAll(c, AfterSubmit(Success(q)), lists, now)
    {
      ghost var d := State(c.room);
      MarkRequest(c, q.id);
      ghost var d1 := State(c.room);
      ReplyStatus(c, q);
      ghost var d2 := State(c.room);
      lists := [[], []];
      if q.status == Pending {
        var list := BroadcastRequests(c, now);
        lists := [[], [], list];
        DoThree(d, d1, d2, c.room, c.id, Mark(q.id), [], StatusReply(q), [], Broadcast, list);
        assert AfterSubmit(Success(q)) == [Mark(q.id), StatusReply(q), Broadcast];
      } else {
        DoTwo(d, d1, c.room, c.id, Mark(q.id), [], StatusReply(q), []);
        assert AfterSubmit(Success(q)) == [Mark(q.id), StatusReply(q)];
      }
    }

    method SendFailure(c: Hub.Client, m: Msg) returns (lists: seq<seq<Request>>)
      requires Valid() && c.id in hub.peers && hub.peers[c.id] == c
      modifies hub.peers.Values
      ensures Valid() && store.View() == old(store.View())
      ensures DidAll(c, [Post(m)], lists, 0)
    {
      ghost var d := State(c.room);
      SendTo(c, m);
      lists := [[]];
      DoOne(d, c.room, c.id, Post(m), []);
    }

    method SendAsked(c: Hub.Client, res: Result<Request>, now: int) returns (lists: seq<seq<Request>>)
      requires Valid() && c.id in hub.peers && hub.peers[c.id] == c
      modifies hub.peers.Values
      ensures Valid() && store.View() == old(store.View())
      ensures DidAll(c, AfterSubmit(res), lists, now)
    {
      match res
      case Failure(e) => lists := SendFailure(c, JoinStatus(Failure(e), ""));
      case Success(q) => lists := SendSubmitted(c, q, now);
    }

    method HandleAsk(c: Hub.Client, name: string, pub: string, now: int) returns (lists: seq<seq<Request>>)
      requires Valid() && c.id in hub.peers && hub.peers[c.id] == c
      modifies store, store.Repr, hub.peers.Values
      ensures Valid() && DidHandle(c, AskToJoin(name, pub), now, lists)
    {
      ghost var d := State(c.room);
      var res := TakeSubmit(c.room, name, pub, now);
      ghost var d0 := State(c.room);
      lists := SendAsked(c, res, now);
      IsHandled(d, d0, State(c.room), c.room, c.id, AskToJoin(name, pub), now, AfterSubmit(res), lists);
    }

    method SendVerdict(c: Hub.Client, q: Request, now: int) returns (lists: seq<seq<Request>>)
      requires Valid() && c.id in hub.peers && hub.peers[c.id] == c
      modifies hub.peers.Values
      ensures Valid() && store.View() == old(store.View())
      ensures DidAll(c, [Decided(q), Broadcast], lists, now)
    {
      ghost var d := State(c.room);
      TellDecision(c, q);
      ghost var d1 := State(c.room);
      var list := BroadcastRequests(c, now);
      lists := [[], list];
      DoTwo(d, d1, c.room, c.id, Decided(q), [], Broadcast, list);
    }

    /** Nothing to do. */
    lemma NothingDone(c: Hub.Client, u: Up, now: int)
      requires Valid() && c.id in hub.View() && !Forwarded(u)
      requires Handle(Held(c.room), hub.View()[c.id].reqID, u, now) == Effect(Held(c.room), hub.View()[c.id].reqID, [])
      ensures Handles(State(c.room), State(c.room), c.room, c.id, u, now, [])
      ensures store.View() == Store.Put(store.View(), Sha256(c.room), Held(c.room))
    {
      DoNone(State(c.room), c.room, c.id);
      IsHandled(State(c.room), State(c.room), State(c.room), c.room, c.id, u, now, [], []);
      Store.PutBack(store.View(), Sha256(c.room));
    }

    /** A connection that submitted a request decides none. */
    method HandleVerdict(c: Hub.Client, id: Digest, v: Verdict, now: int) returns (lists: seq<seq<Request>>)
      requires Valid() && c.id in hub.peers && hub.peers[c.id] == c
      modifies store, store.Repr, hub.peers.Values
      ensures Valid() && DidHandle(c, Asked(id, v), now, lists)
    {
      lists := [];
      ghost var d := State(c.room);
      if c.reqID.Some? {
        NothingDone(c, Asked(id, v), now);
        return;
      }
      var res := TakeVerdict(c.room, id, v, now);
      ghost var d0 := State(c.room);
      VerdictTaken(d.held, d0.held, now, store.retention, id, v, res);
      if res.Success? {
        lists := SendVerdict(c, res.value, now);
      } else {
        DoNone(d0, c.room, c.id);
      }
      IsHandled(d, d0, State(c.room), c.room, c.id, Asked(id, v), now, AfterVerdict(res), lists);
    }

    method SendPost(c: Hub.Client, m: Msg) returns (lists: seq<seq<Request>>)
      requires Valid() && c.id in hub.peers && hub.peers[c.id] == c
      modifies hub.peers.Values
      ensures Valid() && store.View() == old(store.View())
      ensures DidAll(c, [ToAll(m)], lists, 0)
    {
      ghost var d := State(c.room);
      TellPost(c, m);
      lists := [[]];
      DoOne(d, c.room, c.id, ToAll(m), []);
    }

    method SendPosted(c: Hub.Client, id: Digest, res: Result<JoinMessage>) returns (lists: seq<seq<Request>>)
      requires Valid() && c.id in hub.peers && hub.peers[c.id] == c
      modifies hub.peers.Values
      ensures Valid() && store.View() == old(store.View())
      ensures DidAll(c, AfterPost(id, res), lists, 0)
    {
      match res
      case Failure(e) => lists := SendFailure(c, JoinPostError(id, e));
      case Success(m) => lists := SendPost(c, JoinPost(id, m));
    }

    /** Members, and the applicant itself, write on a request. */
    method StorePost(c: Hub.Client, id: Digest, msgId: string, data: string, now: int) returns (lists: seq<seq<Request>>)
      requires Valid() && c.id in hub.peers && hub.peers[c.id] == c && (c.reqID.None? || c.reqID == Some(id))
      modifies store, store.Repr, hub.peers.Values
      ensures Valid() && DidHandle(c, PostToJoin(id, msgId, data), now, lists)
    {
      ghost var d := State(c.room);
      var res := TakePost(c.room, id, msgId, data, now);
      ghost var d0 := State(c.room);
      PostTaken(d.held, d0.held, now, store.retention, c.reqID, id, msgId, data, res);
      lists := SendPosted(c, id, res);
      PostQuotes(id, res, lists, d0.held, now);
      IsHandled(d, d0, State(c.room), c.room, c.id, PostToJoin(id, msgId, data), now, AfterPost(id, res), lists);
    }

    method HandlePost(c: Hub.Client, id: Digest, msgId: string, data: string, now: int) returns (lists: seq<seq<Request>>)
      requires Valid() && c.id in hub.peers && hub.peers[c.id] == c
      modifies store, store.Repr, hub.peers.Values
      ensures Valid() && DidHandle(c, PostToJoin(id, msgId, data), now, lists)
    {
      lists := [];
      if c.reqID.Some? && c.reqID != Some(id) {
        NothingDone(c, PostToJoin(id, msgId, data), now);
        return;
      }
      lists := StorePost(c, id, msgId, data, now);
    }

    method FinishInStore(c: Hub.Client, id: Digest)
      requires Valid() && c.id in hub.peers && hub.peers[c.id] == c
      modifies store, store.Repr
      ensures Valid() && State(c.room) == Do(old(State(c.room)), c.room, c.id, Finish(id), [])
      ensures store.View() == Store.Put(old(store.View()), Sha256(c.room), Held(c.room))
    {
      TakeDone(c.room, id);
    }

    /** The applicant has the key: it may now decide about others, and its request goes. */
    method HandleDone(c: Hub.Client, id: Digest, now: int) returns (lists: seq<seq<Request>>)
      requires Valid() && c.id in hub.peers && hub.peers[c.id] == c
      modifies store, store.Repr, hub.peers.Values
      ensures Valid() && DidHandle(c, JoinDone(id), now, lists)
    {
      lists := [];
      ghost var d := State(c.room);
      if c.reqID != Some(id) {
        NothingDone(c, JoinDone(id), now);
        return;
      }
      File(c, None);
      ghost var d0 := State(c.room);
      FinishInStore(c, id);
      lists := [[]];
      IsFinished(d, d0, State(c.room), c.room, c.id, id, now);
    }

    method HandleJoin(c: Hub.Client, u: Up, now: int) returns (lists: seq<seq<Request>>)
      requires Valid() && c.id in hub.peers && hub.peers[c.id] == c && !Forwarded(u)
      modifies store, store.Repr, hub.peers.Values
      ensures Valid() && DidHandle(c, u, now, lists)
      ensures Told(old(State(c.room)), State(c.room), c.room, c.id, u, now, lists)
    {
      ghost var d := State(c.room);
      match u {
      case ClaimRoom(create, inboxPub) => lists := HandleClaim(c, create, inboxPub, now);
      case AskToJoin(name, pub) => lists := HandleAsk(c, name, pub, now);
      case ApproveJoin(id, pub, wrap) => lists := HandleVerdict(c, id, Approve(pub, wrap), now);
      case RejectJoin(id) => lists := HandleVerdict(c, id, Reject, now);
      case JoinDone(id) => lists := HandleDone(c, id, now);
      case PostToJoin(id, msgId, data) => lists := HandlePost(c, id, msgId, data, now);
      }
      NewsIsTold(d, State(c.room), c.room, c.id, u, now, lists);
    }
  }
}
