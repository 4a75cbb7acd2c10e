/** Server and pages of one room together, as steps that interleave freely: hub and store
    lock separately, each connection's messages are handled in order, and what is sent
    arrives later. */
module RoomSystem {
  import opened Wrappers
  import opened StoreSpec
  import S = StoreSpec
  import opened Wire
  import opened HubSpec
  import H = HubSpec
  import HubViews
  import opened Browser
  import B = Browser
  import opened JoinSpec
  import J = JoinSpec

  type User = nat

  /** A page and the connection it has open, if any. */
  datatype Visitor = Visitor(page: Page, conn: Option<Id>)

  /** The server's side of a connection: who opened it, the members it was told of,
      whether it was welcomed, what it has sent and is not yet read, what its read loop
      still has to do, and what has left its queue and not yet arrived. */
  datatype Loop = Loop(owner: User, snapshot: seq<Id>, welcomed: bool, up: seq<Up>, todo: seq<Action>, wire: seq<Msg>)

  /** winner is the key of the page whose claim created the room; keys were drawn. */
  datatype Sys = Sys(cap: nat, room: string, retention: int, held: Option<Room>, lines: Lines,
                     loops: map<Id, Loop>, users: map<User, Visitor>,
                     vault: Vault, winner: Option<Key>, keys: set<Key>)

  datatype Event =
    | Opens(user: User, name: string, me: string, from: Option<User>)
    | Connects(user: User, id: Id, snapshot: seq<Id>)
    | Greets(id: Id, list: seq<Request>)
    | Reads(id: Id, now: int)
    | Acts(id: Id, list: seq<Request>)
    | Transmits(id: Id)
    | Delivers(id: Id, drawn: Drawn)
    | Approves(user: User, req: Digest, pub: string, wrap: string)
    | Rejects(user: User, req: Digest)
    | Adopts(user: User, inbox: string)
    | Closes(user: User)
    | Leaves(id: Id)
    | Purges(now: int)

  function Init(cap: nat, room: string, retention: int): Sys {
    Sys(cap, room, retention, None, map[], map[], map[], map[], None, {})
  }

  predicate Open(s: Sys, user: User) {
    user in s.users && s.users[user].conn.Some? && s.users[user].conn.value in s.loops
  }

  /** Every request quoted in a message was in the store when it was composed. */
  ghost predicate Quotes(s: Sys, list: seq<Request>) {
    forall q :: q in list ==> s.held.Some? && q in s.held.value.requests.Values
  }

  ghost predicate Enabled(s: Sys, e: Event) {
    match e
    case Opens(user, _, _, from) => user !in s.users && (from.Some? ==> from.value in s.users)
    case Connects(user, id, snapshot) =>
      && user in s.users && s.users[user].conn.None? && id !in s.loops && id != ""
      && HasSpace(s.lines, s.cap, s.room) && HubViews.Elems(snapshot) == Members(s.lines, s.room)
    case Greets(id, list) => id in s.lines && id in s.loops && !s.loops[id].welcomed && Quotes(s, list)
    case Reads(id, _) =>
      id in s.lines && id in s.loops && s.loops[id].welcomed && s.loops[id].todo == [] && s.loops[id].up != []
    case Acts(id, list) => id in s.lines && id in s.loops && s.loops[id].todo != [] && Quotes(s, list)
    case Transmits(id) => id in s.lines && id in s.loops && s.lines[id].queue != []
    case Delivers(id, drawn) =>
      && id in s.loops && s.loops[id].wire != [] && s.loops[id].owner in s.users
      && s.users[s.loops[id].owner].conn == Some(id) && drawn.key !in s.keys
    case Approves(user, req, _, wrap) =>
      && Open(s, user) && s.users[user].page.rk.Some? && req in s.users[user].page.cards
      && wrap !in s.vault
    case Rejects(user, req) => Open(s, user) && req in s.users[user].page.cards
    case Adopts(user, _) => Open(s, user) && s.users[user].page.rk.Some? && !s.users[user].page.creating
    case Closes(user) => user in s.users && s.users[user].conn.Some?
    case Leaves(id) => id in s.lines && id in s.loops && s.loops[id].welcomed && s.loops[id].todo == []
    case Purges(_) => true
  }

  // ----- the steps -----

  function WithLine(s: Sys, id: Id, l: Line): Sys { s.(lines := s.lines[id := l]) }

  function WithLoop(s: Sys, id: Id, l: Loop): Sys { s.(loops := s.loops[id := l]) }

  function Tell(s: Sys, to: set<Id>, m: Msg): Sys { s.(lines := Send(s.lines, to, m)) }

  function Opening(s: Sys, user: User, name: string, me: string, from: Option<User>): Sys
    requires from.Some? ==> from.value in s.users
  {
    var saved := if from.Some? then s.users[from.value].page.rk else None;
    s.(users := s.users[user := Visitor(Opened(name, me, saved), None)])
  }

  function Connecting(s: Sys, user: User, id: Id, snapshot: seq<Id>): Sys
    requires user in s.users
  {
    s.(lines := H.Join(s.lines, id, s.room),
       loops := s.loops[id := Loop(user, snapshot, false, [], [], [])],
       users := s.users[user := s.users[user].(conn := Some(id))])
  }

  function Greeting(s: Sys, id: Id, list: seq<Request>): Sys
    requires id in s.loops
  {
    Tell(WithLoop(s, id, s.loops[id].(welcomed := true)), {id}, Welcome(id, s.loops[id].snapshot, s.held.Some?, list))
  }

  /** A payload for other members is passed on under the sender's id. */
  function Passed(from: Id, u: Up): Msg
    requires Forwarded(u)
  {
    match u
    case KxTo(_, keyId) => Kx(from, keyId)
    case SignalTo(_, box) => Signal(from, box)
    case RelayTo(_, box) => Relay(from, box)
  }

  /** Only a relayed message may go to everyone. */
  function Forwarding(s: Sys, id: Id, u: Up): Sys
    requires id in s.lines && Forwarded(u)
  {
    if u.to == "" && !u.RelayTo? then s else s.(lines := H.Forward(s.lines, id, u.to, Passed(id, u)))
  }

  function KeyOf(s: Sys, user: User): Option<Key> {
    if user in s.users && s.users[user].page.rk.Some? then Some(s.users[user].page.rk.value.key) else None
  }

  function Joining(s: Sys, id: Id, u: Up, now: int): Sys
    requires id in s.lines && id in s.loops && !Forwarded(u)
  {
    var e := J.Handle(s.held, s.lines[id].reqID, u, now);
    var winner := if s.held.None? && e.held.Some? then KeyOf(s, s.loops[id].owner) else s.winner;
    s.(held := e.held, winner := winner,
       lines := s.lines[id := s.lines[id].(reqID := e.reqID)],
       loops := s.loops[id := s.loops[id].(todo := e.todo)])
  }

  /** The read loop takes the next message; forwarding is one step, the rest begins with
      the change to the store. */
  function Reading(s: Sys, id: Id, now: int): Sys
    requires id in s.lines && id in s.loops && s.loops[id].up != []
  {
    var u := s.loops[id].up[0];
    var t := WithLoop(s, id, s.loops[id].(up := s.loops[id].up[1..]));
    if Forwarded(u) then Forwarding(t, id, u) else Joining(t, id, u, now)
  }

  /** The next thing to do: compose a message, send it, or note who applied. */
  function Acting(s: Sys, id: Id, list: seq<Request>): Sys
    requires id in s.lines && id in s.loops && s.loops[id].todo != []
  {
    var l := s.loops[id];
    var rest := l.todo[1..];
    var t := WithLoop(s, id, l.(todo := rest));
    match l.todo[0]
    case ClaimReply(ok) => WithLoop(s, id, l.(todo := [Post(AnswerMsg(s.held, ok, list))] + rest))
    case StatusReply(q) => WithLoop(s, id, l.(todo := [Post(JoinStatus(Success(q), InboxPub(s.held)))] + rest))
    case Broadcast => WithLoop(s, id, l.(todo := [ToAll(RequestsMsg(s.held, list))] + rest))
    case Post(m) => Tell(t, {id}, m)
    case ToAll(m) => Tell(t, Members(s.lines, s.room), m)
    case Decided(q) => Tell(t, Applicants(s.lines, s.room, q.id), JoinStatus(Success(q), ""))
    case Mark(req) => WithLine(t, id, s.lines[id].(reqID := Some(req)))
    case Finish(req) => t.(held := S.Done(s.held, req))
  }

  function Transmitting(s: Sys, id: Id): Sys
    requires id in s.lines && id in s.loops && s.lines[id].queue != []
  {
    var l := s.lines[id];
    WithLoop(WithLine(s, id, l.(queue := l.queue[1..])), id, s.loops[id].(wire := s.loops[id].wire + [l.queue[0]]))
  }

  /** A page's reply: its new state, and what it wrote to its connection. */
  function Replying(s: Sys, user: User, r: Reply): Sys
    requires Open(s, user)
  {
    var id := s.users[user].conn.value;
    s.(users := s.users[user := s.users[user].(page := r.0)],
       loops := s.loops[id := s.loops[id].(up := s.loops[id].up + r.1)])
  }

  function Delivering(s: Sys, id: Id, drawn: Drawn): Sys
    requires id in s.loops && s.loops[id].wire != [] && s.loops[id].owner in s.users
    requires s.users[s.loops[id].owner].conn == Some(id)
  {
    var l := s.loops[id];
    var t := WithLoop(s, id, l.(wire := l.wire[1..])).(keys := s.keys + {drawn.key});
    Replying(t, l.owner, B.OnServer(s.users[l.owner].page, l.wire[0], drawn, s.vault))
  }

  function Approving(s: Sys, user: User, req: Digest, pub: string, wrap: string): Sys
    requires Open(s, user) && s.users[user].page.rk.Some? && req in s.users[user].page.cards
  {
    var p := s.users[user].page;
    var (p', u, w) := B.ApproveRequest(p, p.cards[req], pub, wrap);
    Replying(s, user, (p', u)).(vault := s.vault[wrap := w])
  }

  function Next(s: Sys, e: Event): Sys
    requires Enabled(s, e)
  {
    match e
    case Opens(user, name, me, from) => Opening(s, user, name, me, from)
    case Connects(user, id, snapshot) => Connecting(s, user, id, snapshot)
    case Greets(id, list) => Greeting(s, id, list)
    case Reads(id, now) => Reading(s, id, now)
    case Acts(id, list) => Acting(s, id, list)
    case Transmits(id) => Transmitting(s, id)
    case Delivers(id, drawn) => Delivering(s, id, drawn)
    case Approves(user, req, pub, wrap) => Approving(s, user, req, pub, wrap)
    case Rejects(user, req) => Replying(s, user, (s.users[user].page, [RejectJoin(req)]))
    case Adopts(user, inbox) => Replying(s, user, B.AdoptInbox(s.users[user].page, inbox))
    case Closes(user) => s.(users := s.users[user := Visitor(B.OnClose(s.users[user].page), None)])
    case Leaves(id) => s.(lines := H.Leave(s.lines, id))
    case Purges(now) => s.(held := S.Purge(s.held, now, s.retention))
  }

  /** What is on its way to a page. */
  function Down(s: Sys, id: Id): seq<Msg>
    requires id in s.loops
  {
    s.loops[id].wire + (if id in s.lines then s.lines[id].queue else [])
  }

  // ----- runs -----

  ghost predicate Run(s: Sys, es: seq<Event>)
    decreases |es|
  {
    es == [] || (Enabled(s, es[0]) && Run(Next(s, es[0]), es[1..]))
  }

  ghost function After(s: Sys, es: seq<Event>): Sys
    requires Run(s, es)
    decreases |es|
  {
    if es == [] then s else After(Next(s, es[0]), es[1..])
  }

  // ----- who decides -----

  lemma ReadingDecides(s: Sys, id: Id, now: int, req: Digest)
    requires Enabled(s, Reads(id, now))
    ensures var u := s.loops[id].up[0];
      DecidesSome(s.held, Reading(s, id, now).held, req) ==> s.lines[id].reqID.None? && (u.ApproveJoin? || u.RejectJoin?) && u.req == req
  {
    var u := s.loops[id].up[0];
    if !Forwarded(u) { OnlyMembersDecide(s.held, s.lines[id].reqID, u, now, req); }
  }

  lemma ActingDecidesNothing(s: Sys, id: Id, list: seq<Request>, req: Digest)
    requires Enabled(s, Acts(id, list))
    ensures !DecidesSome(s.held, Acting(s, id, list).held, req)
  {}

  /** In every step of every run, a request is decided only by an approve or a reject read
      on a connection that has no request of its own. */
  lemma MembersDecide(s: Sys, e: Event, req: Digest)
    requires Enabled(s, e)
    ensures DecidesSome(s.held, Next(s, e).held, req) ==>
      && e.Reads? && s.lines[e.id].reqID.None?
      && (s.loops[e.id].up[0].ApproveJoin? || s.loops[e.id].up[0].RejectJoin?)
      && s.loops[e.id].up[0].req == req
  {
    if e.Reads? {
      ReadingDecides(s, e.id, e.now, req);
    } else if e.Acts? {
      ActingDecidesNothing(s, e.id, e.list, req);
    } else if !e.Purges? {
      assert Next(s, e).held == s.held;
    }
  }

  lemma ActingTells(s: Sys, id: Id, list: seq<Request>) returns (to: set<Id>, m: Msg)
    requires Enabled(s, Acts(id, list))
    ensures var lines := Acting(s, id, list).lines;
      || lines == s.lines || lines == Send(s.lines, to, m)
      || lines == s.lines[id := s.lines[id].(reqID := lines[id].reqID)]
  {
    to, m := {}, PeerLeft(id);
    match s.loops[id].todo[0]
    case Post(p) => to, m := {id}, p;
    case ToAll(p) => to, m := Members(s.lines, s.room), p;
    case Decided(q) => to, m := Applicants(s.lines, s.room, q.id), JoinStatus(Success(q), "");
    case _ =>
  }

  /** Whether a connection has a request is written by its own read loop alone. */
  lemma OwnLoopFilesRequest(s: Sys, e: Event, id: Id)
    requires Enabled(s, e) && id in s.lines && id in Next(s, e).lines
    requires e.Connects? || e.Reads? || e.Acts? ==> e.id != id
    ensures Next(s, e).lines[id].reqID == s.lines[id].reqID
  {
    if e.Acts? {
      var to, m := ActingTells(s, e.id, e.list);
    } else if e.Delivers? || e.Approves? || e.Rejects? || e.Adopts? || e.Closes? || e.Opens? || e.Purges? {
      assert Next(s, e).lines == s.lines;
    }
  }
}
