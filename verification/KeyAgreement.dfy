/** Key agreement: in every run where no page loses its connection while a claim to
    create the room is lost or unanswered, all confirmed members hold the key of the one
    page that created the room, and every approval stored hands over that key. */
module KeyAgreement {
  import opened Wrappers
  import opened StoreSpec
  import S = StoreSpec
  import opened Wire
  import opened HubSpec
  import H = HubSpec
  import opened Browser
  import B = Browser
  import opened JoinSpec
  import J = JoinSpec
  import opened RoomSystem
  import R = RoomSystem
  import opened ClaimCount

  // ----- which runs -----

  /** A page holding a key that is not the room's: its claim lost, or is not yet decided. */
  predicate Losing(s: Sys, c: User) {
    c in s.users && s.users[c].page.rk.Some? && s.winner != Some(s.users[c].page.rk.value.key)
  }

  /** No losing page is cut off or duplicated, and the room is not purged. */
  predicate Careful(s: Sys, e: Event) {
    match e
    case Opens(_, _, _, from) => from.Some? ==> !Losing(s, from.value)
    case Closes(c) => !Losing(s, c)
    case Purges(now) => s.held.Some? ==> !Stale(s.held.value, now, s.retention)
    case _ => true
  }

  ghost predicate CarefulRun(s: Sys, es: seq<Event>)
    decreases |es|
  {
    es == [] || (Enabled(s, es[0]) && Careful(s, es[0]) && CarefulRun(R.Next(s, es[0]), es[1..]))
  }

  // ----- the invariant of a connection -----

  /** Where the page behind a connection stands: gone from it, without a key, with a key
      that is not the room's, or with the room's. */
  datatype Standing = Away | Keyless | Loser | Member

  function StandingOf(s: Sys, i: Id): Standing
    requires i in s.loops
  {
    var c := s.loops[i].owner;
    if c !in s.users || s.users[c].conn != Some(i) then Away
    else if s.users[c].page.rk.None? then Keyless
    else if Some(s.users[c].page.rk.value.key) == s.winner then Member else Loser
  }

  predicate UpOk(st: Standing, known: bool, u: Up) {
    u.ClaimRoom? ==> if u.create then st.Loser? else (st.Member? || st.Away?) && known
  }

  predicate AnswerOk(st: Standing, ok: bool) {
    if ok then st.Member? || st.Away? else st.Loser?
  }

  predicate ActOk(st: Standing, a: Action) {
    match a
    case ClaimReply(ok) => AnswerOk(st, ok)
    case Post(m) => MsgOk(st, m) && !m.Welcome?
    case ToAll(m) => Quiet(m)
    case _ => true
  }

  predicate MsgOk(st: Standing, m: Msg) {
    m.ClaimResult? ==> AnswerOk(st, m.ok)
  }

  ghost predicate ClaimsOk(st: Standing, known: bool, l: Loop, d: seq<Msg>) {
    && (forall u :: u in l.up ==> UpOk(st, known, u))
    && (forall a :: a in l.todo ==> ActOk(st, a))
    && (forall m :: m in d ==> MsgOk(st, m))
    && (st.Loser? ==> l.welcomed && Claims(l, d) <= 1)
    && Count(d, WelcomeMsg) <= (if l.welcomed && !st.Loser? then 1 else 0)
  }

  // ----- the invariant of a page -----

  predicate Genuine(q: Request) {
    q.id == Sha256(q.pub)
  }

  ghost predicate KeyOk(p: Page, online: bool, winner: Option<Key>, keys: set<Key>) {
    && (p.claimed ==> winner.Some? && Keyed(p) == winner && online)
    && (p.cards != map[] ==> winner.Some? && Keyed(p) == winner)
    && (p.rk.Some? && Keyed(p) != winner ==> p.creating && online)
    && (p.rk.Some? ==> p.rk.value.key in keys)
    && (forall id :: id in p.cards ==> p.cards[id].id == id && Genuine(p.cards[id]))
  }

  ghost predicate HolderOk(s: Sys, c: User)
    requires c in s.users
  {
    var v := s.users[c];
    && KeyOk(v.page, v.conn.Some?, s.winner, s.keys)
    && (v.conn.Some? ==> v.conn.value in s.loops && s.loops[v.conn.value].owner == c)
  }

  // ----- the invariant of what is stored and quoted -----

  /** The approval hands the winner's key to the owner of pub. */
  predicate HandsOver(vault: Vault, winner: Option<Key>, approverPub: string, pub: string, wrap: string) {
    wrap in vault && vault[wrap].a == approverPub && vault[wrap].b == pub && Some(vault[wrap].secret.key) == winner
  }

  predicate RequestOk(vault: Vault, winner: Option<Key>, id: Digest, q: Request) {
    q.id == id && Genuine(q) && (q.status == Approved ==> HandsOver(vault, winner, q.approverPub, q.pub, q.wrap))
  }

  ghost predicate HeldOk(vault: Vault, winner: Option<Key>, held: Option<Room>) {
    held.Some? ==>
      forall id :: id in held.value.requests ==> RequestOk(vault, winner, id, held.value.requests[id])
  }

  ghost predicate VaultOk(vault: Vault, winner: Option<Key>) {
    forall w :: w in vault ==> Some(vault[w].secret.key) == winner
  }

  /** An approval on its way is for the owner of the request it names. */
  predicate ApprovalOk(vault: Vault, u: Up) {
    u.ApproveJoin? ==> u.wrap in vault && vault[u.wrap].a == u.approverPub && u.req == Sha256(vault[u.wrap].b)
  }

  ghost predicate QuotesOk(m: Msg) {
    && (m.ClaimResult? ==> forall q :: q in m.requests ==> Genuine(q))
    && (m.JoinRequests? ==> forall q :: q in m.requests ==> Genuine(q))
  }

  ghost predicate ActQuotesOk(a: Action) {
    (a.Post? || a.ToAll?) ==> QuotesOk(a.msg)
  }

  ghost predicate TrafficOk(vault: Vault, l: Loop, d: seq<Msg>) {
    && (forall u :: u in l.up ==> ApprovalOk(vault, u))
    && (forall a :: a in l.todo ==> ActQuotesOk(a))
    && (forall m :: m in d ==> QuotesOk(m))
  }

  // ----- the invariant -----

  ghost predicate LoopIs(s: Sys, i: Id) {
    i in s.loops ==>
      && ClaimsOk(StandingOf(s, i), s.winner.Some?, s.loops[i], Down(s, i))
      && TrafficOk(s.vault, s.loops[i], Down(s, i))
  }

  ghost predicate HolderIs(s: Sys, c: User) {
    c in s.users ==> HolderOk(s, c)
  }

  predicate Apart(s: Sys, c: User, d: User) {
    c in s.users && d in s.users && c != d && s.users[c].page.rk.Some?
      && Keyed(s.users[c].page) == Keyed(s.users[d].page)
    ==> Keyed(s.users[c].page) == s.winner
  }

  ghost predicate LoopsOk(s: Sys) { forall i :: LoopIs(s, i) }

  ghost predicate HoldersOk(s: Sys) { forall c :: HolderIs(s, c) }

  /** Two pages share a key only if it is the room's. */
  ghost predicate KeysApart(s: Sys) { forall c, d :: Apart(s, c, d) }

  ghost predicate Settled(s: Sys) {
    && (s.winner.Some? <==> s.held.Some?)
    && (s.winner.Some? ==> s.winner.value in s.keys)
    && (s.lines.Keys <= s.loops.Keys)
    && (forall i :: i in s.lines ==> s.lines[i].room == s.room)
    && VaultOk(s.vault, s.winner)
    && HeldOk(s.vault, s.winner, s.held)
  }

  ghost predicate Inv(s: Sys) {
    Settled(s) && HoldersOk(s) && KeysApart(s) && LoopsOk(s)
  }

  // ----- what arrives changes nothing by being on its way -----

  lemma OneMoreQuiet(st: Standing, known: bool, l: Loop, d: seq<Msg>, m: Msg)
    requires ClaimsOk(st, known, l, d) && Quiet(m)
    ensures ClaimsOk(st, known, l, d + [m])
  {
    CountConcat(d, [m], ClaimMsg);
    CountConcat(d, [m], WelcomeMsg);
    CountOne(m, ClaimMsg);
    CountOne(m, WelcomeMsg);
  }

  lemma PrefixDown(st: Standing, known: bool, l: Loop, w: seq<Msg>, q: seq<Msg>)
    requires ClaimsOk(st, known, l, w + q)
    ensures ClaimsOk(st, known, l, w)
  {
    CountConcat(w, q, ClaimMsg);
    CountConcat(w, q, WelcomeMsg);
    assert forall m :: m in w ==> m in w + q;
  }

  /** A message told to some members is on its way to each of them, or they are dropped. */
  lemma ToldDown(s: Sys, to: set<Id>, m: Msg, i: Id)
    requires i in s.loops
    ensures Down(Tell(s, to, m), i) == Down(s, i)
         || (i in to && i in s.lines && Down(Tell(s, to, m), i) == Down(s, i) + [m])
  {
    if i in s.lines && i in to && |s.lines[i].queue| < SEND_QUEUE {
      assert s.loops[i].wire + (s.lines[i].queue + [m]) == (s.loops[i].wire + s.lines[i].queue) + [m];
    }
  }

  lemma ToldLoop(s: Sys, to: set<Id>, m: Msg, i: Id)
    requires i in s.loops && ClaimsOk(StandingOf(s, i), s.winner.Some?, s.loops[i], Down(s, i))
    requires Quiet(m) || i !in to
    ensures ClaimsOk(StandingOf(s, i), s.winner.Some?, s.loops[i], Down(Tell(s, to, m), i))
  {
    ToldDown(s, to, m, i);
    if Down(Tell(s, to, m), i) != Down(s, i) {
      OneMoreQuiet(StandingOf(s, i), s.winner.Some?, s.loops[i], Down(s, i), m);
    }
  }

  lemma ToldTraffic(s: Sys, to: set<Id>, m: Msg, i: Id)
    requires i in s.loops && TrafficOk(s.vault, s.loops[i], Down(s, i)) && QuotesOk(m)
    ensures TrafficOk(s.vault, s.loops[i], Down(Tell(s, to, m), i))
  {
    ToldDown(s, to, m, i);
  }

  /** Nothing about pages and keys depends on what is on its way. */
  lemma SameUsers(s: Sys, t: Sys)
    requires HoldersOk(s) && KeysApart(s)
    requires t == s.(loops := t.loops, lines := t.lines, held := t.held)
    requires s.loops.Keys <= t.loops.Keys && forall j :: j in s.loops ==> t.loops[j].owner == s.loops[j].owner
    ensures HoldersOk(t) && KeysApart(t)
  {
    forall c ensures HolderIs(t, c) { assert HolderIs(s, c); }
    forall c, d ensures Apart(t, c, d) { assert Apart(s, c, d); }
  }

  /** Telling members something quiet keeps the invariant. */
  lemma TellKeeps(s: Sys, to: set<Id>, m: Msg)
    requires Inv(s) && Quiet(m) && QuotesOk(m)
    ensures Inv(Tell(s, to, m))
  {
    var t := Tell(s, to, m);
    SameUsers(s, t);
    forall i ensures LoopIs(t, i) {
      assert LoopIs(s, i);
      if i in s.loops {
        ToldLoop(s, to, m, i);
        ToldTraffic(s, to, m, i);
      }
    }
  }

  /** A change to one connection keeps the rest. */
  lemma OneLoopKeeps(s: Sys, t: Sys, i: Id)
    requires Inv(s) && i in s.loops && i in t.loops && t == s.(loops := t.loops, lines := t.lines)
    requires t.loops == s.loops[i := t.loops[i]] && t.loops[i].owner == s.loops[i].owner
    requires t.lines.Keys == s.lines.Keys && forall j :: j in s.lines && j != i ==> t.lines[j] == s.lines[j]
    requires i in s.lines ==> t.lines[i].room == s.lines[i].room
    requires ClaimsOk(StandingOf(s, i), s.winner.Some?, t.loops[i], Down(t, i))
    requires TrafficOk(s.vault, t.loops[i], Down(t, i))
    ensures Inv(t)
  {
    SameUsers(s, t);
    forall j ensures LoopIs(t, j) {
      assert LoopIs(s, j);
      if j in s.loops && j != i { assert StandingOf(t, j) == StandingOf(s, j) && Down(t, j) == Down(s, j); }
    }
  }

  // ----- steps of the server -----

  lemma WelcomeQueued(s: Sys, t: Sys, id: Id, m: Msg, l: Loop)
    requires id in s.loops && id in s.lines && !s.loops[id].welcomed && m.Welcome?
    requires ClaimsOk(StandingOf(s, id), s.winner.Some?, s.loops[id], Down(s, id))
    requires l == s.loops[id].(welcomed := true) && t == Tell(WithLoop(s, id, l), {id}, m)
    ensures ClaimsOk(StandingOf(s, id), s.winner.Some?, l, Down(t, id))
  {
    ToldDown(WithLoop(s, id, l), {id}, m, id);
    CountConcat(Down(s, id), [m], ClaimMsg);
    CountConcat(Down(s, id), [m], WelcomeMsg);
    CountOne(m, ClaimMsg);
    CountOne(m, WelcomeMsg);
  }

  lemma GreetKeeps(s: Sys, id: Id, list: seq<Request>)
    requires Inv(s) && Enabled(s, Greets(id, list))
    ensures Inv(Greeting(s, id, list))
  {
    var t := Greeting(s, id, list);
    var l := s.loops[id].(welcomed := true);
    var m := Welcome(id, s.loops[id].snapshot, s.held.Some?, list);
    assert LoopIs(s, id);
    WelcomeQueued(s, t, id, m, l);
    ToldTraffic(WithLoop(s, id, l), {id}, m, id);
    OneLoopKeeps(s, t, id);
  }

  lemma TransmitKeeps(s: Sys, id: Id)
    requires Inv(s) && Enabled(s, Transmits(id))
    ensures Inv(Transmitting(s, id))
  {
    var t := Transmitting(s, id);
    var w, q := s.loops[id].wire, s.lines[id].queue;
    assert LoopIs(s, id);
    assert (w + [q[0]]) + q[1..] == w + q;
    OneLoopKeeps(s, t, id);
  }

  // ----- reading a message -----

  lemma UpTaken(st: Standing, known: bool, l: Loop, d: seq<Msg>)
    requires ClaimsOk(st, known, l, d) && l.up != []
    ensures ClaimsOk(st, known, l.(up := l.up[1..]), d)
    ensures l.up[0].ClaimRoom? && st.Loser? ==> Claims(l.(up := l.up[1..]), d) == 0
  {
    CountTail(l.up, ClaimUp);
  }

  lemma TakeKeeps(s: Sys, id: Id)
    requires Inv(s) && id in s.loops && s.loops[id].up != []
    ensures Inv(WithLoop(s, id, s.loops[id].(up := s.loops[id].up[1..])))
  {
    var t := WithLoop(s, id, s.loops[id].(up := s.loops[id].up[1..]));
    assert LoopIs(s, id);
    UpTaken(StandingOf(s, id), s.winner.Some?, s.loops[id], Down(s, id));
    assert Down(t, id) == Down(s, id);
    OneLoopKeeps(s, t, id);
  }

  ghost predicate ActsOk(todo: seq<Action>) {
    forall a :: a in todo ==> ActQuotesOk(a) && !ClaimAct(a) && (a.Post? || a.ToAll? ==> Quiet(a.msg))
  }

  lemma RequestPut(vault: Vault, winner: Option<Key>, r: Room, id: Digest, q: Request)
    requires HeldOk(vault, winner, Some(r)) && RequestOk(vault, winner, id, q)
    ensures HeldOk(vault, winner, Some(r.(requests := r.requests[id := q])))
  {}

  lemma SubmitKeepsHeld(vault: Vault, winner: Option<Key>, held: Option<Room>, now: int, name: string, pub: string)
    requires HeldOk(vault, winner, held)
    ensures var (r, res) := S.Submit(held, now, name, pub);
      HeldOk(vault, winner, r) && r.Some? == held.Some? && ActsOk(AfterSubmit(res))
  {
    var (r, res) := S.Submit(held, now, name, pub);
    if res.Success? { RequestPut(vault, winner, held.value, Sha256(pub), res.value); }
  }

  lemma DecideKeepsHeld(vault: Vault, winner: Option<Key>, held: Option<Room>, now: int, id: Digest, v: Verdict)
    requires HeldOk(vault, winner, held) && VaultOk(vault, winner)
    requires v.Approve? ==> ApprovalOk(vault, ApproveJoin(id, v.approverPub, v.wrap))
    ensures var (r, res) := S.Decide(held, now, id, v);
      HeldOk(vault, winner, r) && r.Some? == held.Some? && ActsOk(AfterVerdict(res))
  {
    var (r, res) := S.Decide(held, now, id, v);
    if res.Success? {
      assert RequestOk(vault, winner, id, held.value.requests[id]);
      RequestPut(vault, winner, held.value, id, res.value);
    }
  }

  lemma PostKeepsHeld(vault: Vault, winner: Option<Key>, held: Option<Room>, now: int, id: Digest, msgId: string, data: string)
    requires HeldOk(vault, winner, held)
    ensures var (r, res) := S.AddMessage(held, now, id, msgId, data);
      HeldOk(vault, winner, r) && r.Some? == held.Some? && ActsOk(AfterPost(id, res))
  {
    var (r, res) := S.AddMessage(held, now, id, msgId, data);
    if res.Success? { RequestPut(vault, winner, held.value, id, r.value.requests[id]); }
  }

  lemma HandleKeepsHeld(vault: Vault, winner: Option<Key>, held: Option<Room>, reqID: Option<Digest>, u: Up, now: int)
    requires !Forwarded(u) && !u.ClaimRoom?
    requires HeldOk(vault, winner, held) && VaultOk(vault, winner) && ApprovalOk(vault, u)
    ensures var e := J.Handle(held, reqID, u, now);
      HeldOk(vault, winner, e.held) && e.held.Some? == held.Some? && ActsOk(e.todo)
  {
    match u
    case AskToJoin(name, pub) => SubmitKeepsHeld(vault, winner, held, now, name, pub);
    case ApproveJoin(id, pub, wrap) => DecideKeepsHeld(vault, winner, held, now, id, Approve(pub, wrap));
    case RejectJoin(id) => DecideKeepsHeld(vault, winner, held, now, id, Reject);
    case PostToJoin(id, msgId, data) => PostKeepsHeld(vault, winner, held, now, id, msgId, data);
    case JoinDone(_) =>
  }

  lemma TodoSet(st: Standing, known: bool, l: Loop, d: seq<Msg>, todo: seq<Action>)
    requires ClaimsOk(st, known, l, d) && l.todo == []
    requires forall a :: a in todo ==> ActOk(st, a)
    requires st.Loser? ==> Claims(l, d) + Count(todo, ClaimAct) <= 1
    ensures ClaimsOk(st, known, l.(todo := todo), d)
  {}

  lemma JoinMessageKeeps(s: Sys, id: Id, u: Up, now: int)
    requires Inv(s) && id in s.lines && id in s.loops && s.loops[id].todo == []
    requires !Forwarded(u) && !u.ClaimRoom? && ApprovalOk(s.vault, u)
    ensures Inv(Joining(s, id, u, now))
  {
    var e := J.Handle(s.held, s.lines[id].reqID, u, now);
    HandleKeepsHeld(s.vault, s.winner, s.held, s.lines[id].reqID, u, now);
    var s1 := s.(held := e.held);
    HeldChanged(s, s1);
    var t := Joining(s, id, u, now);
    assert LoopIs(s1, id);
    CountNone(e.todo, ClaimAct);
    TodoSet(StandingOf(s1, id), s1.winner.Some?, s1.loops[id], Down(s1, id), e.todo);
    assert Down(t, id) == Down(s1, id);
    OneLoopKeeps(s1, t, id);
  }

  lemma HeldChanged(s: Sys, t: Sys)
    requires Inv(s) && t == s.(held := t.held)
    requires HeldOk(s.vault, s.winner, t.held) && t.held.Some? == s.held.Some?
    ensures Inv(t)
  {
    SameUsers(s, t);
    forall i ensures LoopIs(t, i) { assert LoopIs(s, i); }
  }

  // ----- reading a claim -----

  /** The claim of page c creates the room: its key becomes the room's. */
  lemma WinnerKeepsLoop(s: Sys, t: Sys, c: User, id: Id, i: Id)
    requires Inv(s) && s.winner.None? && c in s.users && s.users[c].page.rk.Some? && s.users[c].conn == Some(id)
    requires id in s.loops && s.loops[id].owner == c && Claims(s.loops[id], Down(s, id)) == 0
    requires t == s.(held := t.held, winner := Keyed(s.users[c].page)) && i in t.loops
    ensures ClaimsOk(StandingOf(t, i), true, t.loops[i], Down(t, i))
  {
    assert LoopIs(s, i);
    var d := s.loops[i].owner;
    if i == id {
      forall u | u in s.loops[i].up ensures !u.ClaimRoom? { CountZero(s.loops[i].up, ClaimUp, u); }
      forall a | a in s.loops[i].todo ensures !ClaimAct(a) { CountZero(s.loops[i].todo, ClaimAct, a); }
      forall m | m in Down(s, i) ensures !m.ClaimResult? { CountZero(Down(s, i), ClaimMsg, m); }
    } else if StandingOf(s, i).Loser? {
      assert Apart(s, d, c) && HolderIs(s, d);
    }
  }

  lemma WinnerKeeps(s: Sys, t: Sys, c: User, id: Id)
    requires Inv(s) && s.winner.None? && c in s.users && s.users[c].page.rk.Some? && s.users[c].conn == Some(id)
    requires id in s.loops && s.loops[id].owner == c && Claims(s.loops[id], Down(s, id)) == 0
    requires t == s.(held := t.held, winner := Keyed(s.users[c].page))
    requires t.held.Some? && t.held.value.requests == map[]
    ensures Inv(t)
  {
    assert HolderIs(s, c);
    forall i ensures LoopIs(t, i) {
      assert LoopIs(s, i);
      if i in t.loops { WinnerKeepsLoop(s, t, c, id, i); }
    }
    forall d ensures HolderIs(t, d) { assert HolderIs(s, d); }
    forall d, e ensures Apart(t, d, e) { assert Apart(s, d, e); }
  }

  lemma ClaimTodo(ok: bool, news: bool, todo: seq<Action>)
    requires todo == [ClaimReply(ok)] + (if news then [Broadcast] else [])
    ensures Count(todo, ClaimAct) == 1
    ensures forall a :: a in todo ==> a == ClaimReply(ok) || a == Broadcast
  {
    var rest: seq<Action> := if news then [Broadcast] else [];
    CountConcat([ClaimReply(ok)], rest, ClaimAct);
    CountOne(ClaimReply(ok), ClaimAct);
    CountNone(rest, ClaimAct);
  }

  /** After the store has answered a claim, the answer is on its way. */
  lemma AnswerKeeps(s: Sys, t: Sys, id: Id, ok: bool, news: bool)
    requires Inv(s) && id in s.loops && id in s.lines && s.loops[id].todo == []
    requires AnswerOk(StandingOf(s, id), ok)
    requires StandingOf(s, id).Loser? ==> Claims(s.loops[id], Down(s, id)) == 0
    requires t == WithLoop(s, id, s.loops[id].(todo := [ClaimReply(ok)] + (if news then [Broadcast] else [])))
    ensures Inv(t)
  {
    assert LoopIs(s, id);
    ClaimTodo(ok, news, t.loops[id].todo);
    TodoSet(StandingOf(s, id), s.winner.Some?, s.loops[id], Down(s, id), t.loops[id].todo);
    assert Down(t, id) == Down(s, id);
    OneLoopKeeps(s, t, id);
  }

  lemma ClaimKeeps(s: Sys, id: Id, u: Up, now: int)
    requires Inv(s) && id in s.lines && id in s.loops && s.loops[id].todo == []
    requires u.ClaimRoom? && UpOk(StandingOf(s, id), s.winner.Some?, u)
    requires StandingOf(s, id).Loser? ==> Claims(s.loops[id], Down(s, id)) == 0
    ensures Inv(Joining(s, id, u, now))
  {
    var (r, ok) := S.Claim(s.held, now, u.create, u.inboxPub);
    var news := ok && !u.create && InboxPub(s.held) == "" && InboxPub(r) != "";
    var t := Joining(s, id, u, now);
    var s1 := s.(held := r, winner := t.winner);
    if s.held.None? {
      assert StandingOf(s, id).Loser?;
      WinnerKeeps(s, s1, s.loops[id].owner, id);
    } else {
      HeldChanged(s, s1);
    }
    var s2 := WithLoop(s1, id, s.loops[id].(todo := [ClaimReply(ok)] + (if news then [Broadcast] else [])));
    AnswerKeeps(s1, s2, id, ok, news);
    assert t.lines == s2.lines;
  }

  lemma ReadKeeps(s: Sys, id: Id, now: int)
    requires Inv(s) && Enabled(s, Reads(id, now))
    ensures Inv(Reading(s, id, now))
  {
    var l := s.loops[id];
    var u := l.up[0];
    var t := WithLoop(s, id, l.(up := l.up[1..]));
    assert LoopIs(s, id);
    TakeKeeps(s, id);
    assert StandingOf(t, id) == StandingOf(s, id) && Down(t, id) == Down(s, id);
    if Forwarded(u) {
      TellKeeps(t, Targets(t.lines, id, u.to), Passed(id, u));
    } else if u.ClaimRoom? {
      UpTaken(StandingOf(s, id), s.winner.Some?, l, Down(s, id));
      ClaimKeeps(t, id, u, now);
    } else {
      JoinMessageKeeps(t, id, u, now);
    }
  }

  // ----- doing what was to be done -----

  lemma QuotesGenuine(s: Sys, list: seq<Request>)
    requires Settled(s) && Quotes(s, list)
    ensures forall q :: q in list ==> Genuine(q)
  {
    forall q | q in list ensures Genuine(q) {
      var id :| id in s.held.value.requests && s.held.value.requests[id] == q;
    }
  }

  /** Composing a reply in its place. */
  lemma ComposeKeeps(s: Sys, id: Id, a: Action)
    requires Inv(s) && id in s.loops && s.loops[id].todo != []
    requires ClaimAct(a) == ClaimAct(s.loops[id].todo[0]) && ActQuotesOk(a)
    requires ActOk(StandingOf(s, id), s.loops[id].todo[0]) ==> ActOk(StandingOf(s, id), a)
    ensures Inv(WithLoop(s, id, s.loops[id].(todo := [a] + s.loops[id].todo[1..])))
  {
    var l := s.loops[id];
    var rest := l.todo[1..];
    var t := WithLoop(s, id, l.(todo := [a] + rest));
    assert LoopIs(s, id);
    CountTail(l.todo, ClaimAct);
    CountConcat([a], rest, ClaimAct);
    CountOne(a, ClaimAct);
    assert forall b :: b in rest ==> b in l.todo;
    assert Down(t, id) == Down(s, id);
    OneLoopKeeps(s, t, id);
  }

  lemma TodoTaken(st: Standing, known: bool, l: Loop, d: seq<Msg>)
    requires ClaimsOk(st, known, l, d) && l.todo != []
    ensures ClaimsOk(st, known, l.(todo := l.todo[1..]), d)
    ensures Claims(l.(todo := l.todo[1..]), d) + (if ClaimAct(l.todo[0]) then 1 else 0) == Claims(l, d)
  {
    CountTail(l.todo, ClaimAct);
    assert forall b :: b in l.todo[1..] ==> b in l.todo;
  }

  lemma FinishedKeeps(s: Sys, id: Id)
    requires Inv(s) && id in s.loops && s.loops[id].todo != []
    ensures Inv(WithLoop(s, id, s.loops[id].(todo := s.loops[id].todo[1..])))
  {
    var t := WithLoop(s, id, s.loops[id].(todo := s.loops[id].todo[1..]));
    assert LoopIs(s, id);
    TodoTaken(StandingOf(s, id), s.winner.Some?, s.loops[id], Down(s, id));
    assert Down(t, id) == Down(s, id);
    OneLoopKeeps(s, t, id);
  }

  /** A reply moves from what is to be done to what is on its way. */
  lemma ReplyMoves(st: Standing, known: bool, l: Loop, d: seq<Msg>, m: Msg)
    requires ClaimsOk(st, known, l, d) && l.todo != [] && l.todo[0] == Post(m)
    ensures ClaimsOk(st, known, l.(todo := l.todo[1..]), d + [m])
  {
    TodoTaken(st, known, l, d);
    assert ActOk(st, l.todo[0]);
    CountConcat(d, [m], ClaimMsg);
    CountConcat(d, [m], WelcomeMsg);
    CountOne(m, ClaimMsg);
    CountOne(m, WelcomeMsg);
  }

  lemma PostKeeps(s: Sys, id: Id, m: Msg)
    requires Inv(s) && id in s.loops && id in s.lines && s.loops[id].todo != [] && s.loops[id].todo[0] == Post(m)
    ensures Inv(Tell(WithLoop(s, id, s.loops[id].(todo := s.loops[id].todo[1..])), {id}, m))
  {
    var l := s.loops[id].(todo := s.loops[id].todo[1..]);
    var t1 := WithLoop(s, id, l);
    var t := Tell(t1, {id}, m);
    assert LoopIs(s, id);
    assert ActQuotesOk(s.loops[id].todo[0]);
    ToldDown(t1, {id}, m, id);
    TodoTaken(StandingOf(s, id), s.winner.Some?, s.loops[id], Down(s, id));
    ReplyMoves(StandingOf(s, id), s.winner.Some?, s.loops[id], Down(s, id), m);
    assert Down(t1, id) == Down(s, id);
    OneLoopKeeps(s, t, id);
  }

  lemma MarkKeeps(s: Sys, id: Id, l: Line)
    requires Inv(s) && id in s.loops && id in s.lines && l == s.lines[id].(reqID := l.reqID)
    ensures Inv(WithLine(s, id, l))
  {
    var t := WithLine(s, id, l);
    assert LoopIs(s, id);
    assert Down(t, id) == Down(s, id);
    OneLoopKeeps(s, t, id);
  }

  lemma ActKeeps(s: Sys, id: Id, list: seq<Request>)
    requires Inv(s) && Enabled(s, Acts(id, list))
    ensures Inv(Acting(s, id, list))
  {
    var l := s.loops[id];
    var t := WithLoop(s, id, l.(todo := l.todo[1..]));
    assert LoopIs(s, id) && ActOk(StandingOf(s, id), l.todo[0]) && ActQuotesOk(l.todo[0]);
    QuotesGenuine(s, list);
    FinishedKeeps(s, id);
    match l.todo[0]
    case ClaimReply(ok) => ComposeKeeps(s, id, Post(J.AnswerMsg(s.held, ok, list)));
    case StatusReply(q) => ComposeKeeps(s, id, Post(JoinStatus(Success(q), InboxPub(s.held))));
    case Broadcast => ComposeKeeps(s, id, ToAll(RequestsMsg(s.held, list)));
    case Post(m) => PostKeeps(s, id, m);
    case ToAll(m) => TellKeeps(t, Members(s.lines, s.room), m);
    case Decided(q) => TellKeeps(t, Applicants(s.lines, s.room, q.id), JoinStatus(Success(q), ""));
    case Mark(req) => MarkKeeps(t, id, s.lines[id].(reqID := Some(req)));
    case Finish(req) => HeldChanged(t, t.(held := S.Done(s.held, req)));
  }

  // ----- connections come and go -----

  lemma LineRemoved(s: Sys, id: Id)
    requires Inv(s) && id in s.lines && id in s.loops
    ensures Inv(s.(lines := s.lines - {id}))
  {
    var t := s.(lines := s.lines - {id});
    SameUsers(s, t);
    forall i ensures LoopIs(t, i) {
      assert LoopIs(s, i);
      if i in s.loops {
        assert StandingOf(t, i) == StandingOf(s, i);
        if i == id {
          assert Down(t, i) == s.loops[i].wire;
          PrefixDown(StandingOf(s, i), s.winner.Some?, s.loops[i], s.loops[i].wire, s.lines[i].queue);
        } else {
          assert Down(t, i) == Down(s, i);
        }
      }
    }
  }

  lemma LeaveKeeps(s: Sys, id: Id)
    requires Inv(s) && Enabled(s, Leaves(id))
    ensures Inv(s.(lines := H.Leave(s.lines, id)))
  {
    LineRemoved(s, id);
    var t := s.(lines := s.lines - {id});
    TellKeeps(t, Members(t.lines, s.lines[id].room), PeerLeft(id));
  }

  lemma ConnectKeeps(s: Sys, c: User, id: Id, snapshot: seq<Id>)
    requires Inv(s) && Enabled(s, Connects(c, id, snapshot))
    ensures Inv(Connecting(s, c, id, snapshot))
  {
    var s1 := Tell(s, Members(s.lines, s.room), PeerJoined(id));
    TellKeeps(s, Members(s.lines, s.room), PeerJoined(id));
    var t := Connecting(s, c, id, snapshot);
    assert t.lines == s1.lines[id := NewLine(s.room)];
    assert HolderIs(s1, c);
    NewLoop(s1, t, c, id);
    forall i ensures LoopIs(t, i) {
      assert LoopIs(s1, i);
      if i in s.loops { assert StandingOf(t, i) == StandingOf(s1, i) && Down(t, i) == Down(s1, i); }
    }
    forall d ensures HolderIs(t, d) { assert HolderIs(s1, d); }
    forall d, e ensures Apart(t, d, e) { assert Apart(s1, d, e); }
  }

  lemma NewLoop(s: Sys, t: Sys, c: User, id: Id)
    requires id in t.loops && id in t.lines && t.lines[id].queue == [] && c in t.users && t.users[c].conn == Some(id)
    requires t.loops[id].owner == c && t.loops[id].up == [] && t.loops[id].todo == [] && t.loops[id].wire == []
    requires t.users[c].page.rk.Some? ==> Keyed(t.users[c].page) == t.winner
    ensures LoopIs(t, id)
  {
    assert Down(t, id) == [];
  }

  lemma OpenKeeps(s: Sys, c: User, name: string, me: string, from: Option<User>)
    requires Inv(s) && Enabled(s, Opens(c, name, me, from)) && Careful(s, Opens(c, name, me, from))
    ensures Inv(Opening(s, c, name, me, from))
  {
    var t := Opening(s, c, name, me, from);
    if from.Some? { assert HolderIs(s, from.value); }
    forall d ensures HolderIs(t, d) { assert HolderIs(s, d); }
    forall d, e ensures Apart(t, d, e) {
      assert Apart(s, d, e);
      if from.Some? { assert Apart(s, d, from.value) && Apart(s, from.value, e); }
    }
    forall i ensures LoopIs(t, i) { assert LoopIs(s, i); }
  }

  lemma CloseKeeps(s: Sys, c: User)
    requires Inv(s) && Enabled(s, Closes(c)) && !Losing(s, c)
    ensures Inv(s.(users := s.users[c := Visitor(B.OnClose(s.users[c].page), None)]))
  {
    var t := s.(users := s.users[c := Visitor(B.OnClose(s.users[c].page), None)]);
    assert HolderIs(s, c);
    forall d ensures HolderIs(t, d) { assert HolderIs(s, d); }
    forall d, e ensures Apart(t, d, e) { assert Apart(s, d, e); }
    forall i ensures LoopIs(t, i) { assert LoopIs(s, i); }
  }

  lemma PurgeKeeps(s: Sys, now: int)
    requires Inv(s) && Careful(s, Purges(now))
    ensures Inv(s.(held := S.Purge(s.held, now, s.retention)))
  {
    HeldChanged(s, s.(held := S.Purge(s.held, now, s.retention)));
  }

  // ----- steps of a page -----

  /** Messages that neither claim nor approve. */
  predicate Plain(u: Up) {
    !u.ClaimRoom? && !u.ApproveJoin?
  }

  /** What a handler may do to its page: keep its key, lose it, take the room's, or draw a
      new one. */
  predicate KeyMoves(p: Page, p': Page, winner: Option<Key>, keys: set<Key>) {
    p'.rk.None? || Keyed(p') == Keyed(p) || Keyed(p') == winner || p'.rk.value.key !in keys
  }

  /** A step of page c on its connection id keeps the invariant if it keeps that of the
      page and of the connection. */
  lemma PageStepKeeps(s: Sys, t: Sys, c: User, id: Id, p: Page)
    requires Inv(s) && Open(s, c) && s.users[c].conn == Some(id)
    requires t == s.(users := s.users[c := Visitor(p, Some(id))], loops := t.loops, keys := t.keys, vault := t.vault)
    requires id in t.loops && t.loops == s.loops[id := t.loops[id]] && t.loops[id].owner == c
    requires s.keys <= t.keys && VaultOk(t.vault, t.winner)
    requires forall w :: w in s.vault ==> w in t.vault && t.vault[w] == s.vault[w]
    requires KeyOk(p, true, t.winner, t.keys) && KeyMoves(s.users[c].page, p, s.winner, s.keys)
    requires ClaimsOk(StandingOf(t, id), t.winner.Some?, t.loops[id], Down(t, id))
    requires TrafficOk(t.vault, t.loops[id], Down(t, id))
    ensures Inv(t)
  {
    forall i ensures LoopIs(t, i) { OtherLoop(s, t, c, id, p, i); }
    assert HolderIs(s, c);
    forall d ensures HolderIs(t, d) { assert HolderIs(s, d); }
    forall d, e ensures Apart(t, d, e) {
      assert Apart(s, d, e) && HolderIs(s, d) && HolderIs(s, e);
    }
  }

  lemma OtherLoop(s: Sys, t: Sys, c: User, id: Id, p: Page, i: Id)
    requires Inv(s) && c in s.users && s.users[c].conn == Some(id)
    requires t == s.(users := s.users[c := Visitor(p, Some(id))], loops := t.loops, keys := t.keys, vault := t.vault)
    requires id in s.loops && id in t.loops && t.loops == s.loops[id := t.loops[id]] && t.loops[id].owner == c
    requires forall w :: w in s.vault ==> w in t.vault && t.vault[w] == s.vault[w]
    requires LoopIs(t, id)
    ensures LoopIs(t, i)
  {
    assert LoopIs(s, i);
    if i in t.loops && i != id {
      assert StandingOf(t, i) == StandingOf(s, i);
      assert Down(t, i) == Down(s, i);
    }
  }

  /** A page writes messages that are allowed where it stands. */
  lemma Wrote(st: Standing, known: bool, l: Loop, d: seq<Msg>, us: seq<Up>)
    requires ClaimsOk(st, known, l, d)
    requires forall u :: u in us ==> UpOk(st, known, u)
    requires st.Loser? ==> forall u :: u in us ==> !u.ClaimRoom?
    ensures ClaimsOk(st, known, l.(up := l.up + us), d)
  {
    CountConcat(l.up, us, ClaimUp);
    if st.Loser? { CountNone(us, ClaimUp); }
  }

  lemma WroteTraffic(vault: Vault, l: Loop, d: seq<Msg>, us: seq<Up>)
    requires TrafficOk(vault, l, d) && forall u :: u in us ==> ApprovalOk(vault, u)
    ensures TrafficOk(vault, l.(up := l.up + us), d)
  {}

  /** Taking the first message off what is on its way. */
  lemma Received(st: Standing, known: bool, l: Loop, d: seq<Msg>)
    requires ClaimsOk(st, known, l, d) && d != []
    ensures ClaimsOk(st, known, l, d[1..])
    ensures Claims(l, d[1..]) + (if d[0].ClaimResult? then 1 else 0) == Claims(l, d)
    ensures Count(d[1..], WelcomeMsg) + (if d[0].Welcome? then 1 else 0) == Count(d, WelcomeMsg)
  {
    CountTail(d, ClaimMsg);
    CountTail(d, WelcomeMsg);
    assert forall m :: m in d[1..] ==> m in d;
  }

  /** A connection with no claim on it is as good for a page without a key as for one
      whose key lost. */
  lemma NoClaims(st: Standing, known: bool, l: Loop, d: seq<Msg>, st': Standing)
    requires ClaimsOk(st, known, l, d) && Claims(l, d) == 0
    requires st'.Loser? ==> l.welcomed && Count(d, WelcomeMsg) == 0
    ensures ClaimsOk(st', known, l, d)
  {
    forall u | u in l.up ensures !u.ClaimRoom? { CountZero(l.up, ClaimUp, u); }
    forall a | a in l.todo ensures !ClaimAct(a) { CountZero(l.todo, ClaimAct, a); }
    forall m | m in d ensures !m.ClaimResult? { CountZero(d, ClaimMsg, m); }
  }

  lemma KeylessNoClaims(known: bool, l: Loop, d: seq<Msg>)
    requires ClaimsOk(Keyless, known, l, d)
    ensures Claims(l, d) == 0
  {
    forall a | a in l.todo ensures !ClaimAct(a) { assert ActOk(Keyless, a); }
    CountNone(l.up, ClaimUp);
    CountNone(l.todo, ClaimAct);
    CountNone(d, ClaimMsg);
  }

  /** Where a page with this key stands on its open connection. */
  function Stands(p: Page, winner: Option<Key>): Standing {
    if p.rk.None? then Keyless else if Keyed(p) == winner then Member else Loser
  }

  /** What handling one message must keep, seen from the page and its connection. */
  ghost predicate StepOk(s: Sys, p: Page, l: Loop, d: seq<Msg>, drawn: Drawn, p': Page, us: seq<Up>) {
    && KeyOk(p', true, s.winner, s.keys + {drawn.key})
    && KeyMoves(p, p', s.winner, s.keys)
    && ClaimsOk(Stands(p', s.winner), s.winner.Some?, l.(up := l.up + us), d)
    && (forall u :: u in us ==> !u.ApproveJoin?)
  }

  ghost predicate Handling(s: Sys, p: Page, l: Loop, d: seq<Msg>, drawn: Drawn) {
    && Settled(s) && drawn.key !in s.keys && d != []
    && KeyOk(p, true, s.winner, s.keys)
    && ClaimsOk(Stands(p, s.winner), s.winner.Some?, l, d)
    && TrafficOk(s.vault, l, d)
  }

  lemma CreatorWelcomed(s: Sys, p: Page, l: Loop, d: seq<Msg>, drawn: Drawn)
    requires Handling(s, p, l, d, drawn) && d[0].Welcome? && p.rk.None? && !d[0].known
    ensures var (p', us) := B.OnWelcome(p, d[0].members, d[0].known, drawn);
      ClaimsOk(Loser, s.winner.Some?, l.(up := l.up + us), d[1..])
  {
    var (p', us) := B.OnWelcome(p, d[0].members, d[0].known, drawn);
    var known := s.winner.Some?;
    Received(Keyless, known, l, d);
    KeylessNoClaims(known, l, d[1..]);
    NoClaims(Keyless, known, l, d[1..], Loser);
    CountConcat(l.up, us, ClaimUp);
    CountOne(us[0], ClaimUp);
  }

  lemma WelcomedPage(s: Sys, p: Page, members: seq<Id>, known: bool, drawn: Drawn)
    requires KeyOk(p, true, s.winner, s.keys) && drawn.key !in s.keys && !Stands(p, s.winner).Loser?
    requires s.winner.Some? ==> s.winner.value in s.keys
    ensures var (p', us) := B.OnWelcome(p, members, known, drawn);
      && KeyOk(p', true, s.winner, s.keys + {drawn.key}) && KeyMoves(p, p', s.winner, s.keys)
      && (if p.rk.None? && !known then Stands(p', s.winner).Loser? else Keyed(p') == Keyed(p))
      && (forall u :: u in us ==> !u.ApproveJoin? && (u.ClaimRoom? ==> u.create == (p.rk.None? && !known)))
      && (p.rk.None? && known ==> forall u :: u in us ==> Plain(u))
  {}

  lemma WelcomeHandled(s: Sys, p: Page, l: Loop, d: seq<Msg>, drawn: Drawn)
    requires Handling(s, p, l, d, drawn) && d[0].Welcome?
    ensures var (p', us) := B.OnWelcome(p, d[0].members, d[0].known, drawn);
      StepOk(s, p, l, d[1..], drawn, p', us)
  {
    var (p', us) := B.OnWelcome(p, d[0].members, d[0].known, drawn);
    var st, known := Stands(p, s.winner), s.winner.Some?;
    Received(st, known, l, d);
    WelcomedPage(s, p, d[0].members, d[0].known, drawn);
    if p.rk.None? && !d[0].known {
      CreatorWelcomed(s, p, l, d, drawn);
    } else {
      Wrote(st, known, l, d[1..], us);
    }
  }

  lemma ClaimLost(s: Sys, p: Page, l: Loop, d: seq<Msg>, drawn: Drawn)
    requires Handling(s, p, l, d, drawn) && d[0].ClaimResult? && !d[0].ok
    ensures var (p', us) := B.OnClaimResult(p, d[0].ok, d[0].requests, d[0].inboxPub, drawn);
      StepOk(s, p, l, d[1..], drawn, p', us)
  {
    var (p', us) := B.OnClaimResult(p, d[0].ok, d[0].requests, d[0].inboxPub, drawn);
    var known := s.winner.Some?;
    assert MsgOk(Stands(p, s.winner), d[0]);
    Received(Loser, known, l, d);
    NoClaims(Loser, known, l, d[1..], Keyless);
    Wrote(Keyless, known, l, d[1..], us);
  }

  /** Being confirmed: the page keeps the room's key, and claims at most to register an
      inbox. */
  lemma ConfirmedPage(s: Sys, p: Page, m: Msg, drawn: Drawn)
    requires KeyOk(p, true, s.winner, s.keys) && m.ClaimResult? && m.ok && QuotesOk(m)
    requires s.winner.Some? && Keyed(p) == s.winner
    ensures var (p', us) := B.OnClaimResult(p, m.ok, m.requests, m.inboxPub, drawn);
      && KeyOk(p', true, s.winner, s.keys + {drawn.key}) && Keyed(p') == s.winner
      && forall u :: u in us ==> u.KxTo? || (u.ClaimRoom? && !u.create)
  {
    var p0 := p.(creating := false, claimed := true);
    AnnouncesEach(p0, p.roomPeers);
    var (p1, u1) := AnnounceAll(p0, p.roomPeers);
    CardsFollowTheList(p1.(roomInboxPub := m.inboxPub), m.requests);
  }

  lemma ClaimWon(s: Sys, p: Page, l: Loop, d: seq<Msg>, drawn: Drawn)
    requires Handling(s, p, l, d, drawn) && d[0].ClaimResult? && d[0].ok
    ensures var (p', us) := B.OnClaimResult(p, d[0].ok, d[0].requests, d[0].inboxPub, drawn);
      StepOk(s, p, l, d[1..], drawn, p', us)
  {
    var (p', us) := B.OnClaimResult(p, d[0].ok, d[0].requests, d[0].inboxPub, drawn);
    assert MsgOk(Stands(p, s.winner), d[0]);
    Received(Member, true, l, d);
    ConfirmedPage(s, p, d[0], drawn);
    Wrote(Member, true, l, d[1..], us);
  }

  lemma StatusHandled(s: Sys, p: Page, l: Loop, d: seq<Msg>, drawn: Drawn)
    requires Handling(s, p, l, d, drawn) && d[0].JoinStatus?
    ensures var (p', us) := B.OnJoinStatus(p, d[0].status, s.vault);
      StepOk(s, p, l, d[1..], drawn, p', us)
  {
    var (p', us) := B.OnJoinStatus(p, d[0].status, s.vault);
    var st, known := Stands(p, s.winner), s.winner.Some?;
    Received(st, known, l, d);
    if p' == p {
      Wrote(st, known, l, d[1..], us);
    } else {
      KeylessNoClaims(known, l, d[1..]);
      NoClaims(Keyless, known, l, d[1..], Member);
      Wrote(Member, known, l, d[1..], us);
    }
  }

  lemma RequestsHandler(s: Sys, p: Page, m: Msg, drawn: Drawn, vault: Vault)
    requires KeyOk(p, true, s.winner, s.keys) && QuotesOk(m) && m.JoinRequests?
    ensures var (p', us) := B.OnServer(p, m, drawn, vault);
      KeyOk(p', true, s.winner, s.keys + {drawn.key}) && Keyed(p') == Keyed(p) && us == []
  {
    if p.rk.Some? {
      var p1 := if m.inboxPub == "" then p else p.(roomInboxPub := m.inboxPub);
      CardsFollowTheList(p1, m.requests);
    }
  }

  lemma PeerHandler(p: Page, m: Msg, drawn: Drawn, vault: Vault)
    requires !m.Welcome? && !m.ClaimResult? && !m.JoinStatus? && !m.JoinRequests?
    ensures var (p', us) := B.OnServer(p, m, drawn, vault);
      && p'.rk == p.rk && p'.claimed == p.claimed && p'.creating == p.creating && p'.cards == p.cards
      && forall u :: u in us ==> u.KxTo? || u.SignalTo?
  {}

  /** The other handlers keep the key and claim nothing. */
  lemma PlainHandler(s: Sys, p: Page, m: Msg, drawn: Drawn, vault: Vault)
    requires KeyOk(p, true, s.winner, s.keys) && QuotesOk(m)
    requires !m.Welcome? && !m.ClaimResult? && !m.JoinStatus?
    ensures var (p', us) := B.OnServer(p, m, drawn, vault);
      && KeyOk(p', true, s.winner, s.keys + {drawn.key}) && Keyed(p') == Keyed(p)
      && forall u :: u in us ==> Plain(u)
  {
    if m.JoinRequests? {
      RequestsHandler(s, p, m, drawn, vault);
    } else {
      PeerHandler(p, m, drawn, vault);
    }
  }

  lemma PlainHandled(s: Sys, p: Page, l: Loop, d: seq<Msg>, drawn: Drawn)
    requires Handling(s, p, l, d, drawn) && !d[0].Welcome? && !d[0].ClaimResult? && !d[0].JoinStatus?
    ensures var (p', us) := B.OnServer(p, d[0], drawn, s.vault);
      StepOk(s, p, l, d[1..], drawn, p', us)
  {
    var (p', us) := B.OnServer(p, d[0], drawn, s.vault);
    var st, known := Stands(p, s.winner), s.winner.Some?;
    Received(st, known, l, d);
    PlainHandler(s, p, d[0], drawn, s.vault);
    Wrote(st, known, l, d[1..], us);
  }

  lemma Handled(s: Sys, p: Page, l: Loop, d: seq<Msg>, drawn: Drawn)
    requires Handling(s, p, l, d, drawn)
    ensures var (p', us) := B.OnServer(p, d[0], drawn, s.vault);
      StepOk(s, p, l, d[1..], drawn, p', us)
  {
    match d[0]
    case Welcome(_, _, _, _) => WelcomeHandled(s, p, l, d, drawn);
    case ClaimResult(ok, _, _) =>
      if ok { ClaimWon(s, p, l, d, drawn); } else { ClaimLost(s, p, l, d, drawn); }
    case JoinStatus(_, _) => StatusHandled(s, p, l, d, drawn);
    case _ => PlainHandled(s, p, l, d, drawn);
  }

  lemma Delivered(s: Sys, id: Id, drawn: Drawn, p': Page, us: seq<Up>)
    requires Inv(s) && Enabled(s, Delivers(id, drawn))
    requires (p', us) == B.OnServer(s.users[s.loops[id].owner].page, s.loops[id].wire[0], drawn, s.vault)
    ensures var l := s.loops[id]; var t := Delivering(s, id, drawn);
      && t == s.(users := s.users[l.owner := Visitor(p', Some(id))], loops := t.loops, keys := s.keys + {drawn.key})
      && t.loops == s.loops[id := l.(wire := l.wire[1..], up := l.up + us)]
      && Down(s, id) != [] && Down(s, id)[0] == l.wire[0] && Down(t, id) == Down(s, id)[1..]
      && StandingOf(t, id) == Stands(p', s.winner)
      && StandingOf(s, id) == Stands(s.users[l.owner].page, s.winner)
  {}

  lemma DeliverKeeps(s: Sys, id: Id, drawn: Drawn)
    requires Inv(s) && Enabled(s, Delivers(id, drawn))
    ensures Inv(Delivering(s, id, drawn))
  {
    var l := s.loops[id];
    var p := s.users[l.owner].page;
    var (p', us) := B.OnServer(p, l.wire[0], drawn, s.vault);
    Delivered(s, id, drawn, p', us);
    assert LoopIs(s, id) && HolderIs(s, l.owner);
    Handled(s, p, l, Down(s, id), drawn);
    HandledKeeps(s, id, drawn, p', us);
  }

  lemma HandledKeeps(s: Sys, id: Id, drawn: Drawn, p': Page, us: seq<Up>)
    requires Inv(s) && Enabled(s, Delivers(id, drawn)) && Down(s, id) != []
    requires (p', us) == B.OnServer(s.users[s.loops[id].owner].page, s.loops[id].wire[0], drawn, s.vault)
    requires StepOk(s, s.users[s.loops[id].owner].page, s.loops[id], Down(s, id)[1..], drawn, p', us)
    ensures Inv(Delivering(s, id, drawn))
  {
    var l := s.loops[id];
    var t := Delivering(s, id, drawn);
    Delivered(s, id, drawn, p', us);
    assert LoopIs(s, id) && HolderIs(s, l.owner);
    WroteTraffic(s.vault, l, Down(s, id)[1..], us);
    PageStepKeeps(s, t, l.owner, id, p');
  }

  lemma ReplyKeeps(s: Sys, t: Sys, c: User, p: Page, us: seq<Up>, vault: Vault)
    requires Inv(s) && Open(s, c) && t == Replying(s, c, (p, us)).(vault := vault)
    requires VaultOk(vault, s.winner) && forall w :: w in s.vault ==> w in vault && vault[w] == s.vault[w]
    requires KeyOk(p, true, s.winner, s.keys) && Keyed(p) == Keyed(s.users[c].page)
    requires forall u :: u in us ==> ApprovalOk(vault, u) && UpOk(Stands(p, s.winner), s.winner.Some?, u)
    requires Stands(p, s.winner).Loser? ==> forall u :: u in us ==> !u.ClaimRoom?
    ensures Inv(t)
  {
    var id := s.users[c].conn.value;
    assert LoopIs(s, id) && HolderIs(s, c);
    assert Down(t, id) == Down(s, id);
    assert StandingOf(s, id) == Stands(p, s.winner) == StandingOf(t, id);
    Wrote(StandingOf(s, id), s.winner.Some?, s.loops[id], Down(s, id), us);
    WroteTraffic(vault, s.loops[id], Down(s, id), us);
    PageStepKeeps(s, t, c, id, p);
  }

  lemma ApproveKeeps(s: Sys, c: User, req: Digest, pub: string, wrap: string)
    requires Inv(s) && Enabled(s, Approves(c, req, pub, wrap))
    ensures Inv(Approving(s, c, req, pub, wrap))
  {
    var p := s.users[c].page;
    var (p', us, w) := B.ApproveRequest(p, p.cards[req], pub, wrap);
    assert HolderIs(s, c);
    assert Genuine(p.cards[req]) && Keyed(p) == s.winner;
    ReplyKeeps(s, Approving(s, c, req, pub, wrap), c, p', us, s.vault[wrap := w]);
  }

  lemma RejectKeeps(s: Sys, c: User, req: Digest)
    requires Inv(s) && Enabled(s, Rejects(c, req))
    ensures Inv(R.Next(s, Rejects(c, req)))
  {
    assert HolderIs(s, c);
    ReplyKeeps(s, R.Next(s, Rejects(c, req)), c, s.users[c].page, [RejectJoin(req)], s.vault);
  }

  lemma AdoptKeeps(s: Sys, c: User, inbox: string)
    requires Inv(s) && Enabled(s, Adopts(c, inbox))
    ensures Inv(R.Next(s, Adopts(c, inbox)))
  {
    assert HolderIs(s, c);
    var (p', us) := B.AdoptInbox(s.users[c].page, inbox);
    ReplyKeeps(s, R.Next(s, Adopts(c, inbox)), c, p', us, s.vault);
  }

  // ----- runs -----

  lemma StepKeeps(s: Sys, e: Event)
    requires Inv(s) && Enabled(s, e) && Careful(s, e)
    ensures Inv(R.Next(s, e))
  {
    match e
    case Opens(c, name, me, from) => OpenKeeps(s, c, name, me, from);
    case Connects(c, id, snapshot) => ConnectKeeps(s, c, id, snapshot);
    case Greets(id, list) => GreetKeeps(s, id, list);
    case Reads(id, now) => ReadKeeps(s, id, now);
    case Acts(id, list) => ActKeeps(s, id, list);
    case Transmits(id) => TransmitKeeps(s, id);
    case Delivers(id, drawn) => DeliverKeeps(s, id, drawn);
    case Approves(c, req, pub, wrap) => ApproveKeeps(s, c, req, pub, wrap);
    case Rejects(c, req) => RejectKeeps(s, c, req);
    case Adopts(c, inbox) => AdoptKeeps(s, c, inbox);
    case Closes(c) => CloseKeeps(s, c);
    case Leaves(id) => LeaveKeeps(s, id);
    case Purges(now) => PurgeKeeps(s, now);
  }

  ghost function AfterRun(s: Sys, es: seq<Event>): Sys
    requires CarefulRun(s, es)
    decreases |es|
  {
    if es == [] then s else AfterRun(R.Next(s, es[0]), es[1..])
  }

  lemma {:induction false} RunKeeps(s: Sys, es: seq<Event>)
    requires Inv(s) && CarefulRun(s, es)
    ensures Inv(AfterRun(s, es))
    decreases |es|
  {
    if es != [] {
      StepKeeps(s, es[0]);
      RunKeeps(R.Next(s, es[0]), es[1..]);
    }
  }

  /** All confirmed members hold the winner's key, and every approval stored opens, for
      the owner of the request's key pair, to that key. */
  ghost predicate Agreement(s: Sys) {
    && (forall c :: c in s.users && s.users[c].page.claimed ==> s.winner.Some? && Keyed(s.users[c].page) == s.winner)
    && (forall id :: s.held.Some? && id in s.held.value.requests ==> Approval(s, s.held.value.requests[id]))
  }

  ghost predicate Approval(s: Sys, q: Request) {
    q.status == Approved ==>
      var got := Unwrap(s.vault, q.pub, q.approverPub, q.wrap);
      got.Some? && Some(got.value.key) == s.winner
  }

  lemma InvAgrees(s: Sys)
    requires Inv(s)
    ensures Agreement(s)
  {
    forall c | c in s.users && s.users[c].page.claimed ensures s.winner.Some? && Keyed(s.users[c].page) == s.winner {
      assert HolderIs(s, c);
    }
    forall id | s.held.Some? && id in s.held.value.requests ensures Approval(s, s.held.value.requests[id]) {
      assert RequestOk(s.vault, s.winner, id, s.held.value.requests[id]);
    }
  }

  /** Main result. */
  lemma KeysAgree(cap: nat, room: string, retention: int, es: seq<Event>)
    requires CarefulRun(Init(cap, room, retention), es)
    ensures Agreement(AfterRun(Init(cap, room, retention), es))
  {
    InitInv(cap, room, retention);
    RunKeeps(Init(cap, room, retention), es);
    InvAgrees(AfterRun(Init(cap, room, retention), es));
  }

  lemma InitInv(cap: nat, room: string, retention: int)
    ensures Inv(Init(cap, room, retention))
  {
    var s := Init(cap, room, retention);
    assert forall i :: LoopIs(s, i);
    assert forall c :: HolderIs(s, c);
    assert forall c, d :: Apart(s, c, d);
  }

  /** The winner is the page whose create claim the store took when there was no room, and
      stays the winner. */
  lemma WinnerWhenRead(s: Sys, e: Event)
    requires Inv(s) && e.Reads? && Enabled(s, e)
    ensures s.winner.Some? ==> R.Next(s, e).winner == s.winner
    ensures s.winner.None? && R.Next(s, e).winner.Some? ==>
      && s.loops[e.id].up[0].ClaimRoom? && s.loops[e.id].up[0].create
      && R.Next(s, e).winner == KeyOf(s, s.loops[e.id].owner)
  {
    assert LoopIs(s, e.id);
    var u := s.loops[e.id].up[0];
    assert UpOk(StandingOf(s, e.id), s.winner.Some?, u);
    if !Forwarded(u) && !u.ClaimRoom? {
      assert ApprovalOk(s.vault, u);
      HandleKeepsHeld(s.vault, s.winner, s.held, s.lines[e.id].reqID, u, e.now);
    }
  }

  lemma WinnerIsTheCreator(s: Sys, e: Event)
    requires Inv(s) && Enabled(s, e) && Careful(s, e)
    ensures s.winner.Some? ==> R.Next(s, e).winner == s.winner
    ensures s.winner.None? && R.Next(s, e).winner.Some? ==>
      && e.Reads? && s.loops[e.id].up[0].ClaimRoom? && s.loops[e.id].up[0].create
      && R.Next(s, e).winner == KeyOf(s, s.loops[e.id].owner)
  {
    if e.Reads? { WinnerWhenRead(s, e); } else { assert R.Next(s, e).winner == s.winner; }
  }
}
