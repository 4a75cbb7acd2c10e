/** Discovery over whole runs of the room. */
module DiscoveryRuns {
  import opened Wrappers
  import opened StoreSpec
  import opened Wire
  import opened HubSpec
  import H = HubSpec
  import HubViews
  import opened Browser
  import B = Browser
  import opened JoinSpec
  import J = JoinSpec
  import opened RoomSystem
  import R = RoomSystem
  import opened ClaimCount
  import opened Discovery

  // ----- the invariant -----

  predicate OpenAt(s: Sys, i: Id) {
    i in s.loops && s.loops[i].owner in s.users && s.users[s.loops[i].owner].conn == Some(i)
  }

  function PageAt(s: Sys, i: Id): Page
    requires OpenAt(s, i)
  {
    s.users[s.loops[i].owner].page
  }

  /** Connected on both sides, and not about to be dropped. */
  predicate Live(s: Sys, i: Id) {
    OpenAt(s, i) && i in s.lines && !s.lines[i].kicked
  }

  function EndOf(s: Sys, i: Id): End
    requires OpenAt(s, i)
  {
    End(PageAt(s, i), s.loops[i].up, Down(s, i))
  }

  predicate Waiting(s: Sys, a: Id, b: Id)
    requires a in s.loops
  {
    !s.loops[a].welcomed && b in s.loops[a].snapshot
  }

  ghost predicate ConnIs(s: Sys, i: Id) {
    i in s.loops ==>
      && ChannelOk(s.loops.Keys, s.loops[i], Down(s, i))
      && (OpenAt(s, i) ==> MemberOk(s.loops.Keys, PageAt(s, i), s.loops[i], Down(s, i)))
  }

  ghost predicate PairIs(s: Sys, a: Id, b: Id) {
    a != b && Live(s, a) && Live(s, b) ==> PairOk(a, b, EndOf(s, a), EndOf(s, b), Waiting(s, a, b))
  }

  predicate Offline(p: Page) {
    !p.claimed && p.announced == {} && p.peers == {} && p.roomPeers == []
  }

  ghost predicate VisitorIs(s: Sys, c: User) {
    c in s.users ==>
      match s.users[c].conn
      case None => Offline(s.users[c].page)
      case Some(i) => i in s.loops && s.loops[i].owner == c
  }

  ghost predicate Base(s: Sys) {
    && s.lines.Keys <= s.loops.Keys && "" !in s.loops
    && (forall i :: i in s.lines ==> s.lines[i].room == s.room)
  }

  ghost predicate Inv(s: Sys) {
    Base(s) && (forall c :: VisitorIs(s, c)) && (forall i :: ConnIs(s, i)) && (forall a, b :: PairIs(s, a, b))
  }

  // ----- telling -----

  lemma TellReaches(s: Sys, to: set<Id>, m: Msg, i: Id)
    requires i in s.loops
    ensures Down(Tell(s, to, m), i) == Down(s, i)
         || (i in to && i in s.lines && Down(Tell(s, to, m), i) == Down(s, i) + [m])
    ensures i in to && i in s.lines && !Tell(s, to, m).lines[i].kicked ==> Down(Tell(s, to, m), i) == Down(s, i) + [m]
  {
    if i in s.lines && i in to && |s.lines[i].queue| < SEND_QUEUE {
      assert s.loops[i].wire + (s.lines[i].queue + [m]) == (s.loops[i].wire + s.lines[i].queue) + [m];
    }
  }

  lemma TellConn(s: Sys, to: set<Id>, m: Msg, i: Id)
    requires ConnIs(s, i) && Quiet(m) && About(m) <= s.loops.Keys
    ensures ConnIs(Tell(s, to, m), i)
  {
    if i in s.loops {
      TellReaches(s, to, m, i);
      LoopHears(s.loops.Keys, s.loops[i], Down(s, i), m);
      if OpenAt(s, i) { PageHears(s.loops.Keys, PageAt(s, i), s.loops[i], Down(s, i), m); }
    }
  }

  lemma TellPair(s: Sys, to: set<Id>, m: Msg, a: Id, b: Id)
    requires PairIs(s, a, b) && (a in to ==> m != PeerLeft(b)) && (b in to ==> Neutral(m, a))
    ensures PairIs(Tell(s, to, m), a, b)
  {
    var t := Tell(s, to, m);
    if a != b && Live(t, a) && Live(t, b) {
      TellReaches(s, to, m, a);
      TellReaches(s, to, m, b);
      var x, y, w := EndOf(s, a), EndOf(s, b), Waiting(s, a, b);
      var x' := EndOf(t, a);
      if x' != x { FirstHears(a, b, x, y, w, m); }
      if EndOf(t, b) != y { SecondHears(a, b, x', y, w, m); }
    }
  }

  /** Telling members something that concerns no two of them. */
  lemma TellKeeps(s: Sys, to: set<Id>, m: Msg)
    requires Inv(s) && Quiet(m) && About(m) <= s.loops.Keys && forall b :: b in s.lines ==> Neutral(m, b)
    ensures Inv(Tell(s, to, m))
  {
    var t := Tell(s, to, m);
    forall c ensures VisitorIs(t, c) { assert VisitorIs(s, c); }
    forall i ensures ConnIs(t, i) { assert ConnIs(s, i); TellConn(s, to, m, i); }
    forall a, b ensures PairIs(t, a, b) {
      assert PairIs(s, a, b);
      if a in s.lines && b in s.lines { TellPair(s, to, m, a, b); }
    }
  }

  // ----- a change on the server's side of one connection -----

  predicate OneConn(s: Sys, t: Sys, i: Id) {
    && t.room == s.room && t.users == s.users && i in s.loops && i in t.loops
    && t.loops == s.loops[i := t.loops[i]] && t.loops[i].owner == s.loops[i].owner
    && t.lines.Keys == s.lines.Keys && (forall j :: j in s.lines && j != i ==> t.lines[j] == s.lines[j])
    && (i in s.lines ==> t.lines[i].room == s.lines[i].room)
  }

  lemma OneConnKeeps(s: Sys, t: Sys, i: Id)
    requires Inv(s) && OneConn(s, t, i) && ConnIs(t, i)
    requires forall b :: PairIs(t, i, b) && PairIs(t, b, i)
    ensures Inv(t)
  {
    assert t.loops.Keys == s.loops.Keys;
    forall c ensures VisitorIs(t, c) { assert VisitorIs(s, c); }
    forall j ensures ConnIs(t, j) {
      assert ConnIs(s, j);
      if j in s.loops && j != i { assert Down(t, j) == Down(s, j); }
    }
    forall a, b ensures PairIs(t, a, b) {
      assert PairIs(s, a, b) && PairIs(t, i, b) && PairIs(t, a, i);
      if a != i && b != i { OtherPair(s, t, i, a, b); }
    }
  }

  lemma OtherPair(s: Sys, t: Sys, i: Id, a: Id, b: Id)
    requires OneConn(s, t, i) && PairIs(s, a, b) && a != i && b != i
    ensures PairIs(t, a, b)
  {
    if a != b && Live(t, a) && Live(t, b) {
      assert Down(t, a) == Down(s, a) && Down(t, b) == Down(s, b);
      assert EndOf(t, a) == EndOf(s, a) && EndOf(t, b) == EndOf(s, b);
    }
  }

  /** What is under way stays under way. */
  lemma SameEndKeeps(s: Sys, t: Sys, i: Id)
    requires Inv(s) && OneConn(s, t, i) && ConnIs(t, i)
    requires t.loops[i].up == s.loops[i].up && Down(t, i) == Down(s, i)
    requires t.loops[i].welcomed == s.loops[i].welcomed && t.loops[i].snapshot == s.loops[i].snapshot
    requires i in s.lines && t.lines[i].kicked == s.lines[i].kicked
    ensures Inv(t)
  {
    forall b ensures PairIs(t, i, b) && PairIs(t, b, i) {
      assert PairIs(s, i, b) && PairIs(s, b, i);
      if b in s.loops { assert Down(t, b) == Down(s, b); }
    }
    OneConnKeeps(s, t, i);
  }

  /** A message for the page itself. */
  lemma HearsKeeps(s: Sys, t: Sys, i: Id, m: Msg)
    requires Inv(s) && OneConn(s, t, i) && ConnIs(t, i) && i in s.lines
    requires t.loops[i].up == s.loops[i].up && t.loops[i].snapshot == s.loops[i].snapshot
    requires t.lines[i].kicked || (!s.lines[i].kicked && Down(t, i) == Down(s, i) + [m])
    requires (t.loops[i].welcomed == s.loops[i].welcomed && !m.Welcome?)
          || (t.loops[i].welcomed && m.Welcome? && m.members == s.loops[i].snapshot)
    requires About(m) == {} || m.Welcome?
    ensures Inv(t)
  {
    forall b ensures PairIs(t, i, b) && PairIs(t, b, i) {
      assert PairIs(s, i, b) && PairIs(s, b, i);
      if b in s.loops && b != i && Live(t, i) && Live(t, b) {
        assert Down(t, b) == Down(s, b);
        HearsPair(i, b, EndOf(s, i), EndOf(s, b), Waiting(s, i, b), Waiting(t, i, b), Waiting(s, b, i), m);
        assert EndOf(t, i) == EndOf(s, i).(down := EndOf(s, i).down + [m]);
      }
    }
    OneConnKeeps(s, t, i);
  }

  lemma HearsPair(a: Id, b: Id, x: End, y: End, w: bool, w': bool, other: bool, m: Msg)
    requires PairOk(a, b, x, y, w) && PairOk(b, a, y, x, other)
    requires w' == w || (m.Welcome? && (w ==> b in About(m)))
    requires About(m) == {} || m.Welcome?
    ensures PairOk(a, b, x.(down := x.down + [m]), y, w')
    ensures PairOk(b, a, y, x.(down := x.down + [m]), other)
  {
    FirstHears(a, b, x, y, w, m);
    SecondHears(b, a, y, x, other, m);
    assert m in x.down + [m];
  }

  // ----- steps of the server -----

  lemma GreetKeeps(s: Sys, id: Id, list: seq<Request>)
    requires Inv(s) && Enabled(s, Greets(id, list))
    ensures Inv(Greeting(s, id, list))
  {
    var t := Greeting(s, id, list);
    var l := s.loops[id].(welcomed := true);
    var m := Welcome(id, s.loops[id].snapshot, s.held.Some?, list);
    TellReaches(WithLoop(s, id, l), {id}, m, id);
    assert ConnIs(s, id);
    GreetConn(s, t, id, m, l);
    HearsKeeps(s, t, id, m);
  }

  lemma GreetConn(s: Sys, t: Sys, id: Id, m: Msg, l: Loop)
    requires ConnIs(s, id) && id in s.loops && id in s.lines && !s.loops[id].welcomed && m.Welcome?
    requires About(m) <= s.loops.Keys && l == s.loops[id].(welcomed := true) && t == Tell(WithLoop(s, id, l), {id}, m)
    requires Down(t, id) == Down(s, id) || Down(t, id) == Down(s, id) + [m]
    ensures ConnIs(t, id)
  {
    LoopGreeted(s.loops.Keys, s.loops[id], Down(s, id), m);
    assert t.loops.Keys == s.loops.Keys;
    if OpenAt(s, id) {
      var p := PageAt(s, id);
      assert !p.claimed && (p.creating ==> Claims(s.loops[id], Down(s, id)) == 0);
    }
  }

  lemma TransmitKeeps(s: Sys, id: Id)
    requires Inv(s) && Enabled(s, Transmits(id))
    ensures Inv(Transmitting(s, id))
  {
    var t := Transmitting(s, id);
    var w, q := s.loops[id].wire, s.lines[id].queue;
    assert ConnIs(s, id);
    assert (w + [q[0]]) + q[1..] == w + q;
    assert Down(t, id) == Down(s, id) && t.loops.Keys == s.loops.Keys;
    ConnUnmoved(s, t, id);
    SameEndKeeps(s, t, id);
  }

  /** What a page sees of its connection is all that matters, and what the server does. */
  lemma ConnUnmoved(s: Sys, t: Sys, i: Id)
    requires ConnIs(s, i) && i in s.loops && i in t.loops && t.loops.Keys == s.loops.Keys && t.users == s.users
    requires t.loops[i] == s.loops[i].(wire := t.loops[i].wire) && Down(t, i) == Down(s, i)
    ensures ConnIs(t, i)
  {}

  /** A change of what is to be done. */
  lemma TodoKeeps(s: Sys, t: Sys, i: Id, todo: seq<Action>)
    requires Inv(s) && i in s.loops && i in s.lines && i in t.lines && t.users == s.users && t.room == s.room
    requires t.loops == s.loops[i := s.loops[i].(todo := todo)]
    requires t.lines == s.lines[i := s.lines[i].(reqID := t.lines[i].reqID)]
    requires ChannelOk(s.loops.Keys, t.loops[i], Down(s, i))
    requires OpenAt(s, i) ==> MemberOk(s.loops.Keys, PageAt(s, i), t.loops[i], Down(s, i))
    ensures Inv(t)
  {
    assert Down(t, i) == Down(s, i) && t.loops.Keys == s.loops.Keys;
    assert ConnIs(t, i);
    SameEndKeeps(s, t, i);
  }

  /** The invariant is about connections and pages only. */
  lemma ElsewhereKeeps(s: Sys, t: Sys)
    requires Inv(s) && t.room == s.room && t.users == s.users && t.loops == s.loops && t.lines == s.lines
    ensures Inv(t)
  {
    forall c ensures VisitorIs(t, c) { assert VisitorIs(s, c); }
    forall i ensures ConnIs(t, i) { assert ConnIs(s, i); }
    forall a, b ensures PairIs(t, a, b) { assert PairIs(s, a, b); }
  }

  // ----- doing what was to be done -----

  lemma FinishKeeps(s: Sys, id: Id)
    requires Inv(s) && id in s.loops && id in s.lines && s.loops[id].todo != []
    ensures Inv(WithLoop(s, id, s.loops[id].(todo := s.loops[id].todo[1..])))
  {
    var l := s.loops[id];
    assert ConnIs(s, id);
    LoopFinishes(s.loops.Keys, l, Down(s, id));
    if OpenAt(s, id) { PageFinishes(s.loops.Keys, PageAt(s, id), l, Down(s, id)); }
    TodoKeeps(s, WithLoop(s, id, l.(todo := l.todo[1..])), id, l.todo[1..]);
  }

  lemma ComposeKeeps(s: Sys, id: Id, a: Action)
    requires Inv(s) && id in s.loops && id in s.lines && s.loops[id].todo != []
    requires ClaimAct(a) == ClaimAct(s.loops[id].todo[0]) && OfficeAct(a)
    requires a.ClaimReply? ==> s.loops[id].todo[0] == a
    requires a.Post? && a.msg.ClaimResult? ==> s.loops[id].todo[0] == ClaimReply(a.msg.ok)
    ensures Inv(WithLoop(s, id, s.loops[id].(todo := [a] + s.loops[id].todo[1..])))
  {
    var l := s.loops[id];
    assert ConnIs(s, id);
    var p := if OpenAt(s, id) then PageAt(s, id) else Opened("", "", None);
    PageComposes(s.loops.Keys, p, l, Down(s, id), a);
    TodoKeeps(s, WithLoop(s, id, l.(todo := [a] + l.todo[1..])), id, [a] + l.todo[1..]);
  }

  lemma PostConn(s: Sys, t: Sys, id: Id, m: Msg, l: Loop)
    requires ConnIs(s, id) && id in s.loops && s.loops[id].todo != [] && s.loops[id].todo[0] == Post(m)
    requires l == s.loops[id].(todo := s.loops[id].todo[1..]) && t == Tell(WithLoop(s, id, l), {id}, m)
    requires Down(t, id) == Down(s, id) || Down(t, id) == Down(s, id) + [m]
    ensures ConnIs(t, id)
  {
    assert t.loops.Keys == s.loops.Keys;
    LoopPosts(s.loops.Keys, s.loops[id], Down(s, id), m);
    LoopFinishes(s.loops.Keys, s.loops[id], Down(s, id));
    if OpenAt(s, id) {
      PagePosts(s.loops.Keys, PageAt(s, id), s.loops[id], Down(s, id), m);
      PageFinishes(s.loops.Keys, PageAt(s, id), s.loops[id], Down(s, id));
    }
  }

  lemma PostKeeps(s: Sys, id: Id, m: Msg)
    requires Inv(s) && id in s.loops && id in s.lines && s.loops[id].todo != [] && s.loops[id].todo[0] == Post(m)
    ensures Inv(Tell(WithLoop(s, id, s.loops[id].(todo := s.loops[id].todo[1..])), {id}, m))
  {
    var l := s.loops[id].(todo := s.loops[id].todo[1..]);
    var t1 := WithLoop(s, id, l);
    var t := Tell(t1, {id}, m);
    assert ConnIs(s, id) && OfficeAct(s.loops[id].todo[0]);
    assert Down(t1, id) == Down(s, id);
    TellReaches(t1, {id}, m, id);
    PostConn(s, t, id, m, l);
    HearsKeeps(s, t, id, m);
  }

  lemma MarkKeeps(s: Sys, id: Id, req: Option<Digest>)
    requires Inv(s) && id in s.loops && id in s.lines
    ensures Inv(WithLine(s, id, s.lines[id].(reqID := req)))
  {
    var t := WithLine(s, id, s.lines[id].(reqID := req));
    assert ConnIs(s, id);
    assert t.loops == s.loops[id := s.loops[id].(todo := s.loops[id].todo)];
    TodoKeeps(s, t, id, s.loops[id].todo);
  }

  lemma ActKeeps(s: Sys, id: Id, list: seq<Request>)
    requires Inv(s) && Enabled(s, Acts(id, list))
    ensures Inv(Acting(s, id, list))
  {
    var l := s.loops[id];
    var t := WithLoop(s, id, l.(todo := l.todo[1..]));
    assert ConnIs(s, id) && OfficeAct(l.todo[0]);
    FinishKeeps(s, id);
    match l.todo[0]
    case ClaimReply(ok) => ComposeKeeps(s, id, Post(AnswerMsg(s.held, ok, list)));
    case StatusReply(q) => ComposeKeeps(s, id, Post(JoinStatus(Success(q), InboxPub(s.held))));
    case Broadcast => ComposeKeeps(s, id, ToAll(RequestsMsg(s.held, list)));
    case Post(m) => PostKeeps(s, id, m);
    case ToAll(m) => TellKeeps(t, Members(s.lines, s.room), m);
    case Decided(q) => TellKeeps(t, Applicants(s.lines, s.room, q.id), JoinStatus(Success(q), ""));
    case Mark(req) => MarkKeeps(t, id, Some(req));
    case Finish(req) => ElsewhereKeeps(t, Acting(s, id, list));
  }

  // ----- reading a message -----

  lemma ClaimActs(held: Option<Room>, create: bool, inboxPub: string, now: int)
    ensures var todo := AfterClaim(held, create, inboxPub, now).1;
      && (forall a :: a in todo ==> OfficeAct(a))
      && Count(todo, ClaimAct) == 1 && exists ok :: (!create ==> ok) && Answers(todo, ok)
  {
    var todo := AfterClaim(held, create, inboxPub, now).1;
    var ok := todo[0].ok;
    var rest := todo[1..];
    assert todo == [ClaimReply(ok)] + rest;
    CountConcat([ClaimReply(ok)], rest, ClaimAct);
    CountOne(ClaimReply(ok), ClaimAct);
    CountNone(rest, ClaimAct);
    assert Answers(todo, ok);
  }

  ghost predicate ClaimsNothing(todo: seq<Action>) {
    forall a :: a in todo ==> OfficeAct(a) && !ClaimAct(a)
  }

  lemma OtherActs(held: Option<Room>, reqID: Option<Digest>, u: Up, now: int)
    requires !Forwarded(u) && !u.ClaimRoom?
    ensures ClaimsNothing(J.Handle(held, reqID, u, now).todo)
  {}

  lemma HandleActs(held: Option<Room>, reqID: Option<Digest>, u: Up, now: int)
    requires !Forwarded(u)
    ensures var todo := J.Handle(held, reqID, u, now).todo;
      && (forall a :: a in todo ==> OfficeAct(a))
      && (!u.ClaimRoom? ==> Count(todo, ClaimAct) == 0 && forall a :: a in todo ==> !ClaimAct(a))
      && (u.ClaimRoom? ==> Count(todo, ClaimAct) == 1 && exists ok :: (!u.create ==> ok) && Answers(todo, ok))
  {
    if u.ClaimRoom? {
      ClaimActs(held, u.create, u.inboxPub, now);
    } else {
      OtherActs(held, reqID, u, now);
      CountNone(J.Handle(held, reqID, u, now).todo, ClaimAct);
    }
  }

  predicate Answers(todo: seq<Action>, ok: bool) {
    forall a :: a in todo ==> a == ClaimReply(ok) || a == Broadcast
  }

  lemma ReadConn(s: Sys, id: Id, todo: seq<Action>)
    requires Inv(s) && Enabled(s, Reads(id, 0)) && forall a :: a in todo ==> OfficeAct(a)
    requires var u := s.loops[id].up[0];
      if u.ClaimRoom? then Count(todo, ClaimAct) == 1 && exists ok :: (!u.create ==> ok) && Answers(todo, ok)
      else Count(todo, ClaimAct) == 0 && forall a :: a in todo ==> !ClaimAct(a)
    ensures var l := s.loops[id].(up := s.loops[id].up[1..], todo := todo);
      && ChannelOk(s.loops.Keys, l, Down(s, id))
      && (OpenAt(s, id) ==> MemberOk(s.loops.Keys, PageAt(s, id), l, Down(s, id)))
  {
    var l, d := s.loops[id], Down(s, id);
    assert ConnIs(s, id);
    LoopReads(s.loops.Keys, l, d);
    if OpenAt(s, id) {
      PageReads(s.loops.Keys, PageAt(s, id), l, d);
      if l.up[0].ClaimRoom? {
        var ok :| (!l.up[0].create ==> ok) && Answers(todo, ok);
        PageReadsClaim(s.loops.Keys, PageAt(s, id), l, d, ok, todo);
      }
    }
  }

  lemma ReadPair(s: Sys, t: Sys, id: Id, b: Id)
    requires Inv(s) && OneConn(s, t, id) && id in s.lines && s.loops[id].up != []
    requires !(Forwarded(s.loops[id].up[0]) && s.loops[id].up[0].to == b)
    requires t.loops[id].up == s.loops[id].up[1..] && Down(t, id) == Down(s, id)
    requires t.loops[id].welcomed == s.loops[id].welcomed && t.loops[id].snapshot == s.loops[id].snapshot
    requires t.lines[id].kicked == s.lines[id].kicked
    ensures PairIs(t, id, b) && PairIs(t, b, id)
  {
    assert PairIs(s, id, b) && PairIs(s, b, id);
    if b != id && Live(t, id) && Live(t, b) {
      assert Down(t, b) == Down(s, b);
      FirstRead(id, b, EndOf(s, id), EndOf(s, b), Waiting(s, id, b));
      SecondRead(b, id, EndOf(s, b), EndOf(s, id), Waiting(s, b, id));
      assert EndOf(t, id) == EndOf(s, id).(up := EndOf(s, id).up[1..]) && EndOf(t, b) == EndOf(s, b);
    }
  }

  lemma ReadJoinKeeps(s: Sys, id: Id, now: int)
    requires Inv(s) && Enabled(s, Reads(id, now)) && !Forwarded(s.loops[id].up[0])
    ensures Inv(Reading(s, id, now))
  {
    var l := s.loops[id];
    var t := Reading(s, id, now);
    var e := J.Handle(s.held, s.lines[id].reqID, l.up[0], now);
    HandleActs(s.held, s.lines[id].reqID, l.up[0], now);
    ReadConn(s, id, e.todo);
    assert t.loops == s.loops[id := l.(up := l.up[1..], todo := e.todo)] && t.loops.Keys == s.loops.Keys;
    assert Down(t, id) == Down(s, id);
    assert ConnIs(t, id);
    forall b ensures PairIs(t, id, b) && PairIs(t, b, id) { ReadPair(s, t, id, b); }
    OneConnKeeps(s, t, id);
  }

  // ----- forwarding -----

  lemma ForwardTargets(s: Sys, id: Id, to: Id)
    requires Base(s) && id in s.lines && to != ""
    ensures Targets(s.lines, id, to) == if to in s.lines && to != id then {to} else {}
  {}

  /** The message is taken from the sender and, if its addressee is a member, handed over. */
  lemma ForwardPair(s: Sys, t: Sys, id: Id, to: Id, m: Msg, b: Id)
    requires Inv(s) && Enabled(s, Reads(id, 0)) && Forwarded(s.loops[id].up[0]) && !s.loops[id].up[0].RelayTo?
    requires to == s.loops[id].up[0].to && to != id && to in s.lines && m == Passed(id, s.loops[id].up[0])
    requires t == Tell(WithLoop(s, id, s.loops[id].(up := s.loops[id].up[1..])), {to}, m)
    ensures PairIs(t, id, b) && PairIs(t, b, id)
  {
    var s1 := WithLoop(s, id, s.loops[id].(up := s.loops[id].up[1..]));
    assert Down(s1, id) == Down(s, id) && s1.loops.Keys == s.loops.Keys;
    assert PairIs(s, id, b) && PairIs(s, b, id);
    if b != id && Live(t, id) && Live(t, b) {
      assert Down(s1, b) == Down(s, b);
      TellReaches(s1, {to}, m, id);
      TellReaches(s1, {to}, m, b);
      var x, y := EndOf(s, id), EndOf(s, b);
      if b == to {
        PassesToSecond(id, b, x, y, Waiting(s, id, b));
        PassesFromSecond(id, b, x, y, Waiting(s, b, id));
        assert EndOf(t, id) == x.(up := x.up[1..]) && EndOf(t, b) == y.(down := y.down + [m]);
      } else {
        FirstRead(id, b, x, y, Waiting(s, id, b));
        SecondRead(b, id, y, x, Waiting(s, b, id));
        assert EndOf(t, id) == x.(up := x.up[1..]) && EndOf(t, b) == y;
      }
    }
  }

  lemma ForwardOthers(s: Sys, t: Sys, id: Id, to: Id, m: Msg, a: Id, b: Id)
    requires Inv(s) && Enabled(s, Reads(id, 0)) && Forwarded(s.loops[id].up[0]) && !s.loops[id].up[0].RelayTo?
    requires to == s.loops[id].up[0].to && to != id && to in s.lines && m == Passed(id, s.loops[id].up[0])
    requires t == Tell(WithLoop(s, id, s.loops[id].(up := s.loops[id].up[1..])), {to}, m)
    requires a != id && b != id
    ensures PairIs(t, a, b)
  {
    var s1 := WithLoop(s, id, s.loops[id].(up := s.loops[id].up[1..]));
    assert PairIs(s, a, b);
    OtherPair(s, s1, id, a, b);
    TellPair(s1, {to}, m, a, b);
  }

  lemma ForwardConn(s: Sys, t: Sys, id: Id, to: Id, m: Msg, i: Id)
    requires Inv(s) && Enabled(s, Reads(id, 0)) && Forwarded(s.loops[id].up[0])
    requires m == Passed(id, s.loops[id].up[0])
    requires t == Tell(WithLoop(s, id, s.loops[id].(up := s.loops[id].up[1..])), {to}, m)
    ensures ConnIs(t, i)
  {
    var l := s.loops[id];
    var s1 := WithLoop(s, id, l.(up := l.up[1..]));
    assert ConnIs(s, id) && ConnIs(s, i) && s1.loops.Keys == s.loops.Keys;
    if i in s.loops { assert Down(s1, i) == Down(s, i); }
    LoopReads(s.loops.Keys, l, Down(s, id));
    if OpenAt(s, id) { PageReads(s.loops.Keys, PageAt(s, id), l, Down(s, id)); }
    TellConn(s1, {to}, m, i);
  }

  lemma ReadForwardKeeps(s: Sys, id: Id, now: int)
    requires Inv(s) && Enabled(s, Reads(id, now)) && Forwarded(s.loops[id].up[0])
    ensures Inv(Reading(s, id, now))
  {
    var l := s.loops[id];
    var u := l.up[0];
    var m := Passed(id, u);
    var s1 := WithLoop(s, id, l.(up := l.up[1..]));
    assert ConnIs(s, id) && Addressed(s.loops.Keys, u);
    ForwardTargets(s1, id, u.to);
    if u.to in s.lines && u.to != id {
      var t := Tell(s1, {u.to}, m);
      assert Reading(s, id, now) == t;
      forall i ensures ConnIs(t, i) { ForwardConn(s, t, id, u.to, m, i); }
      forall c ensures VisitorIs(t, c) { assert VisitorIs(s, c); }
      forall a, b ensures PairIs(t, a, b) {
        if a == id { ForwardPair(s, t, id, u.to, m, b); }
        else if b == id { ForwardPair(s, t, id, u.to, m, a); }
        else { ForwardOthers(s, t, id, u.to, m, a, b); }
      }
    } else {
      TellNobody(s1, m);
      assert Reading(s, id, now) == Tell(s1, {}, m);
      DroppedKeeps(s, s1, id);
    }
  }

  lemma TellNobody(s: Sys, m: Msg)
    ensures Tell(s, {}, m) == s
  {
    assert Send(s.lines, {}, m) == s.lines;
  }

  /** A message for someone who is not there is dropped. */
  lemma DroppedKeeps(s: Sys, t: Sys, id: Id)
    requires Inv(s) && Enabled(s, Reads(id, 0)) && Forwarded(s.loops[id].up[0])
    requires s.loops[id].up[0].to !in s.lines || s.loops[id].up[0].to == id
    requires t == WithLoop(s, id, s.loops[id].(up := s.loops[id].up[1..]))
    ensures Inv(t)
  {
    var l := s.loops[id];
    assert ConnIs(s, id) && t.loops.Keys == s.loops.Keys && Down(t, id) == Down(s, id);
    LoopReads(s.loops.Keys, l, Down(s, id));
    if OpenAt(s, id) { PageReads(s.loops.Keys, PageAt(s, id), l, Down(s, id)); }
    assert ConnIs(t, id);
    forall b ensures PairIs(t, id, b) && PairIs(t, b, id) {
      if b in s.lines && b != id { ReadPair(s, t, id, b); }
    }
    OneConnKeeps(s, t, id);
  }

  // ----- steps of a page -----

  predicate PageStep(s: Sys, t: Sys, id: Id, p: Page) {
    && OpenAt(s, id) && t.room == s.room && t.lines == s.lines
    && t.users == s.users[s.loops[id].owner := Visitor(p, Some(id))]
    && id in t.loops && t.loops == s.loops[id := t.loops[id]] && t.loops[id].owner == s.loops[id].owner
  }

  lemma PageStepKeeps(s: Sys, t: Sys, id: Id, p: Page)
    requires Inv(s) && PageStep(s, t, id, p) && ConnIs(t, id)
    requires forall b :: PairIs(t, id, b) && PairIs(t, b, id)
    ensures Inv(t)
  {
    assert t.loops.Keys == s.loops.Keys;
    forall c ensures VisitorIs(t, c) { assert VisitorIs(s, c); }
    forall i ensures ConnIs(t, i) { PageStepConn(s, t, id, p, i); }
    forall a, b ensures PairIs(t, a, b) {
      assert PairIs(t, id, b) && PairIs(t, a, id);
      if a != id && b != id { PageStepPair(s, t, id, p, a, b); }
    }
  }

  lemma PageStepConn(s: Sys, t: Sys, id: Id, p: Page, i: Id)
    requires Inv(s) && PageStep(s, t, id, p) && ConnIs(t, id)
    ensures ConnIs(t, i)
  {
    assert ConnIs(s, i) && t.loops.Keys == s.loops.Keys;
    if i in s.loops && i != id {
      assert Down(t, i) == Down(s, i);
      assert OpenAt(t, i) ==> OpenAt(s, i) && PageAt(t, i) == PageAt(s, i);
    }
  }

  lemma PageStepPair(s: Sys, t: Sys, id: Id, p: Page, a: Id, b: Id)
    requires Inv(s) && PageStep(s, t, id, p) && a != id && b != id
    ensures PairIs(t, a, b)
  {
    assert PairIs(s, a, b);
    if a != b && Live(t, a) && Live(t, b) {
      assert EndOf(t, a) == EndOf(s, a) && EndOf(t, b) == EndOf(s, b);
    }
  }

  lemma DeliverPair(s: Sys, t: Sys, id: Id, p': Page, us: seq<Up>, b: Id)
    requires Inv(s) && PageStep(s, t, id, p') && Down(s, id) != [] && Down(t, id) == Down(s, id)[1..]
    requires HasEffect(PageAt(s, id), Down(s, id)[0], p', us) && Steady(PageAt(s, id))
    requires t.loops[id] == s.loops[id].(wire := t.loops[id].wire, up := s.loops[id].up + us)
    ensures PairIs(t, id, b) && PairIs(t, b, id)
  {
    assert PairIs(s, id, b) && PairIs(s, b, id);
    if b != id && Live(t, id) && Live(t, b) {
      var x, y := EndOf(s, id), EndOf(s, b);
      assert EndOf(t, b) == y && EndOf(t, id) == Handles(x, p', us);
      FirstHandles(id, b, x, y, Waiting(s, id, b), Waiting(s, b, id), p', us);
      SecondHandles(id, b, x, y, Waiting(s, id, b), Waiting(s, b, id), p', us);
    }
  }

  lemma Delivered(s: Sys, id: Id, drawn: Drawn, p': Page, us: seq<Up>)
    requires Inv(s) && Enabled(s, Delivers(id, drawn))
    requires (p', us) == B.OnServer(PageAt(s, id), s.loops[id].wire[0], drawn, s.vault)
    ensures var t := Delivering(s, id, drawn);
      && PageStep(s, t, id, p')
      && t.loops[id] == s.loops[id].(wire := s.loops[id].wire[1..], up := s.loops[id].up + us)
      && Down(s, id) != [] && Down(s, id)[0] == s.loops[id].wire[0] && Down(t, id) == Down(s, id)[1..]
  {}

  lemma DeliverConn(s: Sys, t: Sys, id: Id, p': Page, us: seq<Up>)
    requires PageStep(s, t, id, p') && Down(s, id) != [] && Down(t, id) == Down(s, id)[1..]
    requires t.loops[id] == s.loops[id].(wire := t.loops[id].wire, up := s.loops[id].up + us)
    requires ConnOk(s.loops.Keys, p', s.loops[id].(up := s.loops[id].up + us), Down(s, id)[1..])
    ensures ConnIs(t, id)
  {
    assert t.loops.Keys == s.loops.Keys;
  }

  lemma DeliverKeeps(s: Sys, id: Id, drawn: Drawn)
    requires Inv(s) && Enabled(s, Delivers(id, drawn))
    ensures Inv(Delivering(s, id, drawn))
  {
    var t := Delivering(s, id, drawn);
    var p := PageAt(s, id);
    var (p', us) := B.OnServer(p, s.loops[id].wire[0], drawn, s.vault);
    assert ConnIs(s, id);
    Delivered(s, id, drawn, p', us);
    PageHandles(s.loops.Keys, p, s.loops[id], Down(s, id), drawn, s.vault);
    DeliverConn(s, t, id, p', us);
    forall b ensures PairIs(t, id, b) && PairIs(t, b, id) { DeliverPair(s, t, id, p', us, b); }
    PageStepKeeps(s, t, id, p');
  }

  lemma AsidePair(s: Sys, t: Sys, id: Id, p': Page, us: seq<Up>, b: Id)
    requires Inv(s) && PageStep(s, t, id, p') && Aside(PageAt(s, id), p', us)
    requires t.loops[id] == s.loops[id].(up := s.loops[id].up + us)
    ensures PairIs(t, id, b) && PairIs(t, b, id)
  {
    assert PairIs(s, id, b) && PairIs(s, b, id);
    if b != id && Live(t, id) && Live(t, b) {
      var x, y := EndOf(s, id), EndOf(s, b);
      assert EndOf(t, b) == y && EndOf(t, id) == End(p', x.up + us, x.down);
      FirstAside(id, b, x, y, Waiting(s, id, b), p', us);
      SecondAside(b, id, y, x, Waiting(s, b, id), p', us);
    }
  }

  /** Approving, rejecting, and registering an inbox. */
  lemma AsideKeeps(s: Sys, t: Sys, c: User, p': Page, us: seq<Up>)
    requires Inv(s) && Open(s, c) && t.room == s.room && t.lines == s.lines
    requires t.users == Replying(s, c, (p', us)).users && t.loops == Replying(s, c, (p', us)).loops
    requires Aside(s.users[c].page, p', us) && p'.creating == s.users[c].page.creating
    requires forall u :: u in us && u.ClaimRoom? ==> !u.create && !p'.creating && p'.rk.Some?
    ensures Inv(t)
  {
    assert VisitorIs(s, c);
    var id := s.users[c].conn.value;
    var p, l, d := s.users[c].page, s.loops[id], Down(s, id);
    assert ConnIs(s, id) && t.loops.Keys == s.loops.Keys && Down(t, id) == d;
    AsideReply(s.loops.Keys, p, l, d, p', us);
    PageReplies(s.loops.Keys, p, l, d, p', us);
    assert ConnIs(t, id);
    forall b ensures PairIs(t, id, b) && PairIs(t, b, id) { AsidePair(s, t, id, p', us, b); }
    PageStepKeeps(s, t, id, p');
  }

  lemma AsideReply(ids: set<Id>, p: Page, l: Loop, d: seq<Msg>, p': Page, us: seq<Up>)
    requires ConnOk(ids, p, l, d) && Aside(p, p', us) && p'.creating == p.creating
    requires forall u :: u in us && u.ClaimRoom? ==> !u.create && !p'.creating && p'.rk.Some?
    ensures ReplyOk(ids, p, l, d, p', us) && forall u :: u in us ==> Addressed(ids, u)
  {
    if p'.creating || p'.rk.None? { CountNone(us, ClaimUp); }
  }

  // ----- connections come and go -----

  lemma CloseKeeps(s: Sys, c: User)
    requires Inv(s) && Enabled(s, Closes(c))
    ensures Inv(R.Next(s, Closes(c)))
  {
    var t := R.Next(s, Closes(c));
    forall d ensures VisitorIs(t, d) { assert VisitorIs(s, d); }
    forall i ensures ConnIs(t, i) {
      assert ConnIs(s, i);
      assert OpenAt(t, i) ==> OpenAt(s, i) && PageAt(t, i) == PageAt(s, i);
    }
    forall a, b ensures PairIs(t, a, b) {
      assert PairIs(s, a, b);
      if Live(t, a) && Live(t, b) { assert EndOf(t, a) == EndOf(s, a) && EndOf(t, b) == EndOf(s, b); }
    }
  }

  lemma LineRemoved(s: Sys, id: Id)
    requires Inv(s) && id in s.lines
    ensures Inv(s.(lines := s.lines - {id}))
  {
    var t := s.(lines := s.lines - {id});
    forall c ensures VisitorIs(t, c) { assert VisitorIs(s, c); }
    forall i ensures ConnIs(t, i) { CutConn(s, t, id, i); }
    forall a, b ensures PairIs(t, a, b) {
      assert PairIs(s, a, b);
      if Live(t, a) && Live(t, b) { assert EndOf(t, a) == EndOf(s, a) && EndOf(t, b) == EndOf(s, b); }
    }
  }

  lemma CutConn(s: Sys, t: Sys, id: Id, i: Id)
    requires ConnIs(s, i) && id in s.lines && t == s.(lines := s.lines - {id})
    ensures ConnIs(t, i)
  {
    if i in s.loops {
      if i == id {
        var w, q := s.loops[i].wire, s.lines[i].queue;
        assert Down(t, i) == w;
        LoopCut(s.loops.Keys, s.loops[i], w, q);
        if OpenAt(s, i) { PageCut(s.loops.Keys, PageAt(s, i), s.loops[i], w, q); }
      } else {
        assert Down(t, i) == Down(s, i);
      }
    }
  }

  lemma LeaveKeeps(s: Sys, id: Id)
    requires Inv(s) && Enabled(s, Leaves(id))
    ensures Inv(s.(lines := H.Leave(s.lines, id)))
  {
    LineRemoved(s, id);
    var t := s.(lines := s.lines - {id});
    TellKeeps(t, Members(t.lines, s.lines[id].room), PeerLeft(id));
  }

  lemma OpenKeeps(s: Sys, e: Event)
    requires Inv(s) && e.Opens? && Enabled(s, e)
    ensures Inv(R.Next(s, e))
  {
    var t := R.Next(s, e);
    forall c ensures VisitorIs(t, c) { assert VisitorIs(s, c); }
    forall i ensures ConnIs(t, i) {
      assert ConnIs(s, i);
      assert OpenAt(t, i) ==> OpenAt(s, i) && PageAt(t, i) == PageAt(s, i);
    }
    forall a, b ensures PairIs(t, a, b) {
      assert PairIs(s, a, b);
      if Live(t, a) && Live(t, b) { assert EndOf(t, a) == EndOf(s, a) && EndOf(t, b) == EndOf(s, b); }
    }
  }

  // ----- a new connection -----

  lemma WiderConn(ids: set<Id>, ids': set<Id>, p: Page, l: Loop, d: seq<Msg>)
    requires ChannelOk(ids, l, d) && ids <= ids'
    ensures ChannelOk(ids', l, d) && (MemberOk(ids, p, l, d) ==> MemberOk(ids', p, l, d))
  {}

  lemma NewConn(ids: set<Id>, p: Page, l: Loop)
    requires l.up == [] && l.todo == [] && l.wire == [] && !l.welcomed && HubViews.Elems(l.snapshot) <= ids && Offline(p)
    ensures ConnOk(ids, p, l, [])
  {
    assert Claims(l, []) == 0;
  }

  lemma NewPair(ids: set<Id>, n: Id, b: Id, x: End, y: End, other: bool)
    requires n !in ids && n != b && Offline(x.page) && x.up == [] && x.down == []
    requires forall m :: m in y.down ==> About(m) <= ids || m == PeerJoined(n)
    requires forall u :: u in y.up ==> Addressed(ids, u)
    requires y.page.announced + y.page.peers <= ids && PeerJoined(n) in y.down
    ensures PairOk(n, b, x, y, true) && PairOk(b, n, y, x, other)
  {
    assert forall m :: m in y.down && (m.PeerLeft? || m.Kx? || m.Signal? || m.Relay?) ==> n !in About(m);
  }

  lemma ConnectConn(s: Sys, t: Sys, c: User, id: Id, snapshot: seq<Id>, i: Id)
    requires Inv(s) && Enabled(s, Connects(c, id, snapshot)) && t == Connecting(s, c, id, snapshot)
    ensures ConnIs(t, i)
  {
    var m := PeerJoined(id);
    var s1 := Tell(s, Members(s.lines, s.room), m);
    var ids := s.loops.Keys + {id};
    assert t.loops.Keys == ids && t.lines == s1.lines[id := NewLine(s.room)];
    if i == id {
      assert VisitorIs(s, c) && Down(t, id) == [];
      NewConn(ids, t.users[c].page, t.loops[id]);
    } else if i in s.loops {
      assert ConnIs(s, i);
      TellReaches(s, Members(s.lines, s.room), m, i);
      assert Down(t, i) == Down(s1, i);
      var p := if OpenAt(s, i) then PageAt(s, i) else t.users[c].page;
      var l, d := s.loops[i], Down(s, i);
      WiderConn(s.loops.Keys, ids, p, l, d);
      LoopHears(ids, l, d, m);
      if OpenAt(t, i) {
        assert VisitorIs(s, c) && OpenAt(s, i) && PageAt(t, i) == p;
        PageHears(ids, p, l, d, m);
      }
    }
  }

  lemma ConnectPair(s: Sys, t: Sys, c: User, id: Id, snapshot: seq<Id>, a: Id, b: Id)
    requires Inv(s) && Enabled(s, Connects(c, id, snapshot)) && t == Connecting(s, c, id, snapshot)
    requires a != id && b != id
    ensures PairIs(t, a, b)
  {
    var m := PeerJoined(id);
    var s1 := Tell(s, Members(s.lines, s.room), m);
    assert t.lines == s1.lines[id := NewLine(s.room)];
    assert PairIs(s, a, b) && VisitorIs(s, c);
    TellPair(s, Members(s.lines, s.room), m, a, b);
    if a != b && Live(t, a) && Live(t, b) {
      assert Down(t, a) == Down(s1, a) && Down(t, b) == Down(s1, b);
      assert EndOf(t, a) == EndOf(s1, a) && EndOf(t, b) == EndOf(s1, b);
    }
  }

  lemma ConnectNewPair(s: Sys, t: Sys, c: User, id: Id, snapshot: seq<Id>, b: Id)
    requires Inv(s) && Enabled(s, Connects(c, id, snapshot)) && t == Connecting(s, c, id, snapshot)
    ensures PairIs(t, id, b) && PairIs(t, b, id)
  {
    var m := PeerJoined(id);
    var s1 := Tell(s, Members(s.lines, s.room), m);
    assert t.lines == s1.lines[id := NewLine(s.room)];
    if b != id && Live(t, id) && Live(t, b) {
      assert VisitorIs(s, c) && OpenAt(s, b) && ConnIs(s, b);
      TellReaches(s, Members(s.lines, s.room), m, b);
      assert b in Members(s.lines, s.room) && b in HubViews.Elems(snapshot);
      assert Down(t, b) == Down(s, b) + [m] && Down(t, id) == [];
      NewPair(s.loops.Keys, id, b, EndOf(t, id), EndOf(t, b), Waiting(t, b, id));
    }
  }

  lemma ConnectKeeps(s: Sys, c: User, id: Id, snapshot: seq<Id>)
    requires Inv(s) && Enabled(s, Connects(c, id, snapshot))
    ensures Inv(Connecting(s, c, id, snapshot))
  {
    var t := Connecting(s, c, id, snapshot);
    forall i ensures ConnIs(t, i) { ConnectConn(s, t, c, id, snapshot, i); }
    forall d ensures VisitorIs(t, d) { assert VisitorIs(s, d); }
    forall a, b ensures PairIs(t, a, b) {
      if a == id { ConnectNewPair(s, t, c, id, snapshot, b); }
      else if b == id { ConnectNewPair(s, t, c, id, snapshot, a); }
      else { ConnectPair(s, t, c, id, snapshot, a, b); }
    }
  }

  // ----- runs -----

  lemma PageActKeeps(s: Sys, e: Event)
    requires Inv(s) && Enabled(s, e) && (e.Approves? || e.Rejects? || e.Adopts?)
    ensures Inv(R.Next(s, e))
  {
    var p := s.users[e.user].page;
    match e
    case Approves(c, req, pub, wrap) =>
      var (p', us, _) := B.ApproveRequest(p, p.cards[req], pub, wrap);
      AsideKeeps(s, R.Next(s, e), c, p', us);
    case Rejects(c, req) => AsideKeeps(s, R.Next(s, e), c, p, [RejectJoin(req)]);
    case Adopts(c, inbox) =>
      var (p', us) := B.AdoptInbox(p, inbox);
      AsideKeeps(s, R.Next(s, e), c, p', us);
  }

  lemma StepKeeps(s: Sys, e: Event)
    requires Inv(s) && Enabled(s, e)
    ensures Inv(R.Next(s, e))
  {
    match e
    case Opens(_, _, _, _) => OpenKeeps(s, e);
    case Connects(c, id, snapshot) => ConnectKeeps(s, c, id, snapshot);
    case Greets(id, list) => GreetKeeps(s, id, list);
    case Reads(id, now) =>
      if Forwarded(s.loops[id].up[0]) { ReadForwardKeeps(s, id, now); } else { ReadJoinKeeps(s, id, now); }
    case Acts(id, list) => ActKeeps(s, id, list);
    case Transmits(id) => TransmitKeeps(s, id);
    case Delivers(id, drawn) => DeliverKeeps(s, id, drawn);
    case Approves(_, _, _, _) => PageActKeeps(s, e);
    case Rejects(_, _) => PageActKeeps(s, e);
    case Adopts(_, _) => PageActKeeps(s, e);
    case Closes(c) => CloseKeeps(s, c);
    case Leaves(id) => LeaveKeeps(s, id);
    case Purges(_) => ElsewhereKeeps(s, R.Next(s, e));
  }

  lemma {:induction false} RunKeeps(s: Sys, es: seq<Event>)
    requires Inv(s) && R.Run(s, es)
    ensures Inv(R.After(s, es))
    decreases |es|
  {
    if es != [] {
      StepKeeps(s, es[0]);
      RunKeeps(R.Next(s, es[0]), es[1..]);
    }
  }

  /** A confirmed member on a live connection. */
  predicate MemberAt(s: Sys, i: Id) {
    Live(s, i) && PageAt(s, i).claimed
  }

  /** Nothing is under way between the two: no notice, announcement or signal of one to
      the other.  Whatever else they send and receive does not matter. */
  predicate NothingBetween(s: Sys, a: Id, b: Id)
    requires OpenAt(s, a) && OpenAt(s, b)
  {
    ClearOf(b, EndOf(s, a)) && ClearOf(a, EndOf(s, b))
  }

  lemma Discovered(s: Sys, a: Id, b: Id)
    requires Inv(s) && a != b && MemberAt(s, a) && MemberAt(s, b)
    requires Keyed(PageAt(s, a)) == Keyed(PageAt(s, b)) && NothingBetween(s, a, b)
    ensures b in PageAt(s, a).peers && a in PageAt(s, b).peers
  {
    assert ConnIs(s, a) && ConnIs(s, b) && PairIs(s, a, b) && PairIs(s, b, a);
    NothingUnderWay(a, b, EndOf(s, a), EndOf(s, b), Waiting(s, a, b), Waiting(s, b, a));
  }

  /** Main result: in every run, two connected members that hold the same key and are not
      being dropped have a peer for each other once nothing is under way between them. */
  lemma MembersDiscoverEachOther(cap: nat, room: string, retention: int, es: seq<Event>, a: Id, b: Id)
    requires R.Run(Init(cap, room, retention), es)
    ensures var s := R.After(Init(cap, room, retention), es);
      a != b && MemberAt(s, a) && MemberAt(s, b) && Keyed(PageAt(s, a)) == Keyed(PageAt(s, b))
      && NothingBetween(s, a, b)
      ==> b in PageAt(s, a).peers && a in PageAt(s, b).peers
  {
    var s0 := Init(cap, room, retention);
    var s := R.After(s0, es);
    assert forall i :: ConnIs(s0, i);
    assert forall i, j :: PairIs(s0, i, j);
    assert forall c :: VisitorIs(s0, c);
    RunKeeps(s0, es);
    if a != b && MemberAt(s, a) && MemberAt(s, b) && Keyed(PageAt(s, a)) == Keyed(PageAt(s, b))
       && NothingBetween(s, a, b) {
      Discovered(s, a, b);
    }
  }
}
