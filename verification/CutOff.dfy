/** When a page may be cut off, or its stored key copied, without risk to the agreement:
    exactly when it does not hold a key that is not the room's. */
module CutOff {
  import opened Wrappers
  import opened StoreSpec
  import opened Wire
  import opened HubSpec
  import H = HubSpec
  import HubViews
  import opened Browser
  import opened JoinSpec
  import opened RoomSystem
  import R = RoomSystem
  import opened KeyAgreement

  // ----- losing pages must not be cut off -----

  /** Page c, with a key that is not the room's, on a connection with nothing under way. */
  predicate Astray(s: Sys, c: User, id: Id) {
    && id in s.loops && id in s.lines && s.loops[id].owner == c
    && c in s.users && s.users[c].conn == Some(id) && Losing(s, c) && s.held.Some?
  }

  predicate Pipe(s: Sys, id: Id, welcomed: bool, queue: seq<Msg>, wire: seq<Msg>, up: seq<Up>)
    requires id in s.loops && id in s.lines
  {
    var l := s.loops[id];
    l.welcomed == welcomed && s.lines[id].queue == queue && l.wire == wire && l.up == up
  }

  lemma Reconnects(s: Sys, c: User, id: Id, snapshot: seq<Id>) returns (t: Sys)
    requires Enabled(s, Connects(c, id, snapshot)) && Losing(s, c) && s.held.Some?
    ensures t == R.Next(s, Connects(c, id, snapshot)) && t.keys == s.keys
    ensures Astray(t, c, id) && Pipe(t, id, false, [], [], []) && t.loops[id].todo == []
  {
    t := R.Next(s, Connects(c, id, snapshot));
  }

  lemma IsGreeted(s: Sys, c: User, id: Id) returns (t: Sys, m: Msg)
    requires Astray(s, c, id) && Pipe(s, id, false, [], [], []) && s.loops[id].todo == []
    ensures Enabled(s, Greets(id, [])) && t == R.Next(s, Greets(id, [])) && t.keys == s.keys
    ensures Astray(t, c, id) && m.Welcome? && Pipe(t, id, true, [m], [], []) && t.loops[id].todo == []
  {
    t := R.Next(s, Greets(id, []));
    m := Welcome(id, s.loops[id].snapshot, true, []);
    assert [] + [m] == [m];
  }

  lemma IsSent(s: Sys, c: User, id: Id, m: Msg) returns (t: Sys)
    requires Astray(s, c, id) && Pipe(s, id, true, [m], [], [])
    ensures Enabled(s, Transmits(id)) && t == R.Next(s, Transmits(id)) && t.keys == s.keys
    ensures Astray(t, c, id) && Pipe(t, id, true, [], [m], []) && t.loops[id].todo == s.loops[id].todo
  {
    t := R.Next(s, Transmits(id));
    assert [m][1..] == [] && [] + [m] == [m];
  }

  lemma Reclaims(s: Sys, c: User, id: Id, m: Msg, drawn: Drawn) returns (t: Sys, u: Up)
    requires Astray(s, c, id) && Pipe(s, id, true, [], [m], []) && m.Welcome? && drawn.key !in s.keys
    requires s.loops[id].todo == []
    ensures Enabled(s, Delivers(id, drawn)) && t == R.Next(s, Delivers(id, drawn)) && t.keys == s.keys + {drawn.key}
    ensures Astray(t, c, id) && u.ClaimRoom? && !u.create && Pipe(t, id, true, [], [], [u]) && t.loops[id].todo == []
  {
    t := R.Next(s, Delivers(id, drawn));
    u := ClaimRoom(false, s.users[c].page.rk.value.inbox);
    assert [m][1..] == [] && [] + [u] == [u];
  }

  lemma IsRead(s: Sys, c: User, id: Id, u: Up) returns (t: Sys)
    requires Astray(s, c, id) && Pipe(s, id, true, [], [], [u]) && u.ClaimRoom? && !u.create && s.loops[id].todo == []
    ensures Enabled(s, Reads(id, 0)) && t == R.Next(s, Reads(id, 0)) && t.keys == s.keys
    ensures Astray(t, c, id) && Pipe(t, id, true, [], [], [])
    ensures t.loops[id].todo != [] && t.loops[id].todo[0] == ClaimReply(true)
  {
    t := R.Next(s, Reads(id, 0));
    assert [u][1..] == [];
  }

  lemma IsComposed(s: Sys, c: User, id: Id) returns (t: Sys, m: Msg)
    requires Astray(s, c, id) && Pipe(s, id, true, [], [], [])
    requires s.loops[id].todo != [] && s.loops[id].todo[0] == ClaimReply(true)
    ensures Enabled(s, Acts(id, [])) && t == R.Next(s, Acts(id, [])) && t.keys == s.keys
    ensures Astray(t, c, id) && Pipe(t, id, true, [], [], []) && m.ClaimResult? && m.ok
    ensures t.loops[id].todo != [] && t.loops[id].todo[0] == Post(m)
  {
    t := R.Next(s, Acts(id, []));
    m := ClaimResult(true, [], InboxPub(s.held));
  }

  lemma IsAnswered(s: Sys, c: User, id: Id, m: Msg) returns (t: Sys)
    requires Astray(s, c, id) && Pipe(s, id, true, [], [], [])
    requires s.loops[id].todo != [] && s.loops[id].todo[0] == Post(m)
    ensures Enabled(s, Acts(id, [])) && t == R.Next(s, Acts(id, [])) && t.keys == s.keys
    ensures Astray(t, c, id) && Pipe(t, id, true, [m], [], [])
  {
    t := R.Next(s, Acts(id, []));
    assert [] + [m] == [m];
  }

  /** The room's server takes the reconnected page for a member. */
  lemma IsMistaken(s: Sys, c: User, id: Id, m: Msg, drawn: Drawn)
    requires Astray(s, c, id) && Pipe(s, id, true, [], [m], []) && m.ClaimResult? && m.ok && drawn.key !in s.keys
    ensures Enabled(s, Delivers(id, drawn)) && !Agreement(R.Next(s, Delivers(id, drawn)))
  {
    var t := R.Next(s, Delivers(id, drawn));
    var p := s.users[c].page;
    AnnouncesEach(p.(creating := false, claimed := true), p.roomPeers);
    assert t.users[c].page.claimed && Keyed(t.users[c].page) == Keyed(p);
  }

  lemma RunStarts(s: Sys, e: Event, es: seq<Event>)
    requires Enabled(s, e) && Careful(s, e) && CarefulRun(R.Next(s, e), es)
    ensures CarefulRun(s, [e] + es) && AfterRun(s, [e] + es) == AfterRun(R.Next(s, e), es)
  {
    assert ([e] + es)[1..] == es;
  }

  /** From the moment its claim is on its way. */
  lemma ClaimGoesAstray(s: Sys, c: User, id: Id, u: Up, drawn: Drawn) returns (es: seq<Event>)
    requires Astray(s, c, id) && Pipe(s, id, true, [], [], [u]) && u.ClaimRoom? && !u.create && s.loops[id].todo == []
    requires drawn.key !in s.keys
    ensures CarefulRun(s, es) && !Agreement(AfterRun(s, es))
  {
    var s4 := IsRead(s, c, id, u);
    var s5, m := IsComposed(s4, c, id);
    var s6 := IsAnswered(s5, c, id, m);
    var s7 := IsSent(s6, c, id, m);
    IsMistaken(s7, c, id, m, drawn);
    RunStarts(s7, Delivers(id, drawn), []);
    es := [Delivers(id, drawn)] + [];
    RunStarts(s6, Transmits(id), es);
    es := [Transmits(id)] + es;
    RunStarts(s5, Acts(id, []), es);
    es := [Acts(id, [])] + es;
    RunStarts(s4, Acts(id, []), es);
    es := [Acts(id, [])] + es;
    RunStarts(s, Reads(id, 0), es);
    es := [Reads(id, 0)] + es;
  }

  /** From a connection on which nothing has happened yet. */
  lemma GoesAstray(s: Sys, c: User, id: Id, d1: Drawn, d2: Drawn) returns (es: seq<Event>)
    requires Astray(s, c, id) && Pipe(s, id, false, [], [], []) && s.loops[id].todo == []
    requires d1.key !in s.keys && d2.key !in s.keys && d1.key != d2.key
    ensures CarefulRun(s, es) && !Agreement(AfterRun(s, es))
  {
    var s1, m := IsGreeted(s, c, id);
    var s2 := IsSent(s1, c, id, m);
    var s3, u := Reclaims(s2, c, id, m, d1);
    es := ClaimGoesAstray(s3, c, id, u, d2);
    RunStarts(s2, Delivers(id, d1), es);
    es := [Delivers(id, d1)] + es;
    RunStarts(s1, Transmits(id), es);
    es := [Transmits(id)] + es;
    RunStarts(s, Greets(id, []), es);
    es := [Greets(id, [])] + es;
  }

  // ----- runs in a row -----

  lemma {:induction false} RunsJoin(s: Sys, es: seq<Event>, more: seq<Event>)
    requires CarefulRun(s, es) && CarefulRun(AfterRun(s, es), more)
    ensures CarefulRun(s, es + more) && AfterRun(s, es + more) == AfterRun(AfterRun(s, es), more)
    decreases |es|
  {
    if es == [] {
      assert es + more == more;
    } else {
      RunsJoin(R.Next(s, es[0]), es[1..], more);
      RunStarts(s, es[0], es[1..] + more);
      assert es + more == [es[0]] + (es[1..] + more);
    }
  }

  // ----- the server can always let everyone go -----

  function Work(todo: seq<Action>): nat {
    if todo == [] then 0
    else (if Composes(todo[0]) then 2 else 1) + Work(todo[1..])
  }

  /** Only the server's side of the connections moves. */
  predicate ServerMoves(s: Sys, t: Sys) {
    && t == s.(held := t.held, lines := t.lines, loops := t.loops)
    && t.held.Some? == s.held.Some? && t.loops.Keys == s.loops.Keys && t.lines.Keys <= s.lines.Keys
  }

  predicate Composes(a: Action) {
    a.ClaimReply? || a.StatusReply? || a.Broadcast?
  }

  lemma WorkOf(a: Action, rest: seq<Action>)
    ensures Work([a] + rest) == (if Composes(a) then 2 else 1) + Work(rest)
  {
    assert ([a] + rest)[1..] == rest;
  }

  predicate Moved(s: Sys, t: Sys) {
    t == s.(held := t.held, lines := t.lines, loops := t.loops)
      && t.held.Some? == s.held.Some? && t.loops.Keys == s.loops.Keys && t.lines.Keys == s.lines.Keys
  }

  lemma ToldMoves(s: Sys, l: Loop, id: Id, to: set<Id>, m: Msg)
    requires id in s.loops
    ensures Moved(s, Tell(WithLoop(s, id, l), to, m))
  {}

  lemma ActsMoves(s: Sys, id: Id)
    requires id in s.lines && id in s.loops && s.loops[id].todo != []
    ensures Moved(s, Acting(s, id, []))
  {
    var l := s.loops[id].(todo := s.loops[id].todo[1..]);
    match s.loops[id].todo[0]
    case Post(m) => ToldMoves(s, l, id, {id}, m);
    case ToAll(m) => ToldMoves(s, l, id, Members(s.lines, s.room), m);
    case Decided(q) => ToldMoves(s, l, id, Applicants(s.lines, s.room, q.id), JoinStatus(Success(q), ""));
    case _ =>
  }

  lemma ActsWork(s: Sys, id: Id)
    requires id in s.lines && id in s.loops && s.loops[id].todo != []
    ensures var t := Acting(s, id, []);
      && id in t.loops && t.loops[id].welcomed == s.loops[id].welcomed
      && Work(t.loops[id].todo) < Work(s.loops[id].todo)
  {
    var rest := s.loops[id].todo[1..];
    match s.loops[id].todo[0]
    case ClaimReply(ok) => WorkOf(Post(AnswerMsg(s.held, ok, [])), rest);
    case StatusReply(q) => WorkOf(Post(JoinStatus(Success(q), InboxPub(s.held))), rest);
    case Broadcast => WorkOf(ToAll(RequestsMsg(s.held, [])), rest);
    case _ =>
  }

  lemma ActsOnce(s: Sys, id: Id) returns (t: Sys)
    requires id in s.lines && id in s.loops && s.loops[id].todo != []
    ensures Enabled(s, Acts(id, [])) && t == R.Next(s, Acts(id, []))
    ensures ServerMoves(s, t) && t.lines.Keys == s.lines.Keys && t.loops[id].welcomed == s.loops[id].welcomed
    ensures Work(t.loops[id].todo) < Work(s.loops[id].todo)
  {
    t := R.Next(s, Acts(id, []));
    ActsMoves(s, id);
    ActsWork(s, id);
  }

  lemma {:induction false} Drains(s: Sys, id: Id) returns (es: seq<Event>)
    requires id in s.lines && id in s.loops
    ensures CarefulRun(s, es)
    ensures var t := AfterRun(s, es);
      ServerMoves(s, t) && t.lines.Keys == s.lines.Keys && t.loops[id].welcomed == s.loops[id].welcomed
      && t.loops[id].todo == []
    decreases Work(s.loops[id].todo)
  {
    es := [];
    if s.loops[id].todo != [] {
      var t := ActsOnce(s, id);
      es := Drains(t, id);
      RunStarts(s, Acts(id, []), es);
      es := [Acts(id, [])] + es;
    }
  }

  lemma Welcomes(s: Sys, id: Id) returns (es: seq<Event>)
    requires id in s.lines && id in s.loops
    ensures CarefulRun(s, es)
    ensures var t := AfterRun(s, es);
      ServerMoves(s, t) && t.lines.Keys == s.lines.Keys && t.loops[id].welcomed
  {
    es := [];
    if !s.loops[id].welcomed {
      RunStarts(s, Greets(id, []), []);
      es := [Greets(id, [])] + [];
    }
  }

  lemma Departs(s: Sys, id: Id) returns (es: seq<Event>)
    requires id in s.lines && id in s.loops && s.loops[id].welcomed && s.loops[id].todo == []
    ensures CarefulRun(s, es) && ServerMoves(s, AfterRun(s, es)) && AfterRun(s, es).lines.Keys == s.lines.Keys - {id}
  {
    RunStarts(s, Leaves(id), []);
    es := [Leaves(id)] + [];
  }

  lemma LineLeaves(s: Sys, id: Id) returns (es: seq<Event>)
    requires id in s.lines && id in s.loops
    ensures CarefulRun(s, es) && ServerMoves(s, AfterRun(s, es)) && AfterRun(s, es).lines.Keys == s.lines.Keys - {id}
  {
    var e1 := Welcomes(s, id);
    var t1 := AfterRun(s, e1);
    var e2 := Drains(t1, id);
    var t2 := AfterRun(t1, e2);
    var e3 := Departs(t2, id);
    RunsJoin(t1, e2, e3);
    RunsJoin(s, e1, e2 + e3);
    es := e1 + (e2 + e3);
  }

  /** From any state, every connection can end on the server's side. */
  lemma {:induction false} Empties(s: Sys) returns (es: seq<Event>)
    requires s.lines.Keys <= s.loops.Keys
    ensures CarefulRun(s, es) && ServerMoves(s, AfterRun(s, es)) && AfterRun(s, es).lines == map[]
    decreases |s.lines.Keys|
  {
    es := [];
    if s.lines.Keys != {} {
      var id :| id in s.lines.Keys;
      var e1 := LineLeaves(s, id);
      var t := AfterRun(s, e1);
      assert |s.lines.Keys - {id}| == |s.lines.Keys| - 1;
      var e2 := Empties(t);
      RunsJoin(s, e1, e2);
      es := e1 + e2;
    }
  }

  // ----- a rival creates the room -----

  /** Page f, without a key, on a connection to a room that does not exist. */
  predicate Rival(s: Sys, f: User, id: Id) {
    && id in s.loops && id in s.lines && s.loops[id].owner == f && s.loops[id].todo == []
    && f in s.users && s.users[f].conn == Some(id) && s.users[f].page.rk.None?
    && s.held.None? && s.winner.None?
  }

  /** What a rival's run leaves alone. */
  predicate OthersStay(s: Sys, t: Sys, f: User, id: Id) {
    && t.cap == s.cap && t.room == s.room && t.lines.Keys <= t.loops.Keys
    && t.loops.Keys == s.loops.Keys + {id}
    && forall c :: c in s.users && c != f ==> c in t.users && t.users[c] == s.users[c]
  }

  lemma RivalArrives(s: Sys, f: User, id: Id) returns (t: Sys)
    requires f !in s.users && id !in s.loops && id != "" && s.lines == map[] && s.cap > 0
    requires s.held.None? && s.winner.None?
    ensures CarefulRun(s, [Opens(f, "", "", None), Connects(f, id, [])])
    ensures t == AfterRun(s, [Opens(f, "", "", None), Connects(f, id, [])])
    ensures Rival(t, f, id) && Pipe(t, id, false, [], [], []) && OthersStay(s, t, f, id) && t.keys == s.keys
  {
    var s1 := R.Next(s, Opens(f, "", "", None));
    assert Members(s1.lines, s1.room) == {} && HubViews.Elems([]) == {};
    t := R.Next(s1, Connects(f, id, []));
    RunStarts(s1, Connects(f, id, []), []);
    RunStarts(s, Opens(f, "", "", None), [Connects(f, id, [])] + []);
    assert [Opens(f, "", "", None)] + ([Connects(f, id, [])] + []) == [Opens(f, "", "", None), Connects(f, id, [])];
  }

  lemma RivalIsWelcomed(s: Sys, f: User, id: Id) returns (t: Sys, m: Msg)
    requires Rival(s, f, id) && Pipe(s, id, false, [], [], []) && s.lines.Keys <= s.loops.Keys
    ensures CarefulRun(s, [Greets(id, []), Transmits(id)]) && t == AfterRun(s, [Greets(id, []), Transmits(id)])
    ensures Rival(t, f, id) && m.Welcome? && !m.known && Pipe(t, id, true, [], [m], []) && t.keys == s.keys
    ensures t == s.(lines := t.lines, loops := t.loops) && t.loops.Keys == s.loops.Keys && t.lines.Keys == s.lines.Keys
  {
    var s1 := R.Next(s, Greets(id, []));
    m := Welcome(id, s.loops[id].snapshot, false, []);
    assert [] + [m] == [m] && [m][1..] == [];
    t := R.Next(s1, Transmits(id));
    RunStarts(s1, Transmits(id), []);
    RunStarts(s, Greets(id, []), [Transmits(id)] + []);
    assert [Greets(id, [])] + ([Transmits(id)] + []) == [Greets(id, []), Transmits(id)];
  }

  lemma RivalCreates(s: Sys, f: User, id: Id, m: Msg, d: Drawn) returns (t: Sys)
    requires Rival(s, f, id) && m.Welcome? && !m.known && Pipe(s, id, true, [], [m], []) && d.key !in s.keys
    requires s.lines.Keys <= s.loops.Keys
    ensures CarefulRun(s, [Delivers(id, d), Reads(id, 0)]) && t == AfterRun(s, [Delivers(id, d), Reads(id, 0)])
    ensures t.winner == Some(d.key) && t.held.Some? && t.keys == s.keys + {d.key}
    ensures t.cap == s.cap && t.room == s.room && t.loops.Keys == s.loops.Keys && t.lines.Keys == s.lines.Keys
    ensures forall c :: c in s.users && c != f ==> c in t.users && t.users[c] == s.users[c]
  {
    var s1 := R.Next(s, Delivers(id, d));
    assert s1.loops[id].up == [ClaimRoom(true, d.inbox)];
    t := R.Next(s1, Reads(id, 0));
    RunStarts(s1, Reads(id, 0), []);
    RunStarts(s, Delivers(id, d), [Reads(id, 0)] + []);
    assert [Delivers(id, d)] + ([Reads(id, 0)] + []) == [Delivers(id, d), Reads(id, 0)];
  }

  /** While no claim is decided, a newcomer can win. */
  lemma RivalWins(s: Sys, f: User, id: Id, d: Drawn) returns (es: seq<Event>)
    requires f !in s.users && id !in s.loops && id != "" && s.lines == map[] && s.cap > 0
    requires s.held.None? && s.winner.None? && d.key !in s.keys
    ensures CarefulRun(s, es)
    ensures var t := AfterRun(s, es);
      t.winner == Some(d.key) && t.held.Some? && OthersStay(s, t, f, id) && t.keys == s.keys + {d.key}
  {
    var t1 := RivalArrives(s, f, id);
    var t2, m := RivalIsWelcomed(t1, f, id);
    var t3 := RivalCreates(t2, f, id, m, d);
    var e1, e2, e3 := [Opens(f, "", "", None), Connects(f, id, [])], [Greets(id, []), Transmits(id)], [Delivers(id, d), Reads(id, 0)];
    RunsJoin(t1, e2, e3);
    RunsJoin(s, e1, e2 + e3);
    es := e1 + (e2 + e3);
  }

  // ----- values nobody uses yet -----

  lemma {:induction false} FreshFrom(s: set<nat>, k: nat) returns (n: nat)
    ensures n !in s && n >= k
    decreases |s|
  {
    n := k;
    if k in s { n := FreshFrom(s - {k}, k + 1); }
  }

  lemma FreshNat(s: set<nat>) returns (n: nat)
    ensures n !in s
  {
    n := FreshFrom(s, 0);
  }

  lemma FreshId(ids: set<Id>) returns (id: Id)
    ensures id !in ids && id != ""
  {
    var sizes: set<nat> := set x | x in ids :: |x|;
    var n := FreshFrom(sizes, 1);
    id := seq(n, _ => 'x');
    assert |id| == n;
    forall x | x in ids ensures x != id { assert |x| in sizes; }
  }

  // ----- the exact conditions -----

  /** Page c, not connected, holds a key that is not the room's, and one day reconnects. */
  lemma LoserBreaks(s: Sys, c: User) returns (es: seq<Event>)
    requires s.cap > 0 && s.lines.Keys <= s.loops.Keys && (s.winner.Some? <==> s.held.Some?)
    requires c in s.users && s.users[c].conn.None? && Losing(s, c) && s.users[c].page.rk.value.key in s.keys
    ensures CarefulRun(s, es) && !Agreement(AfterRun(s, es))
  {
    var e1 := Empties(s);
    var s1 := AfterRun(s, e1);
    var e2 := Decides(s1, c);
    var s2 := AfterRun(s1, e2);
    var e3 := Empties(s2);
    var s3 := AfterRun(s2, e3);
    var e4 := ReconnectsAstray(s3, c);
    RunsJoin(s2, e3, e4);
    RunsJoin(s1, e2, e3 + e4);
    RunsJoin(s, e1, e2 + (e3 + e4));
    es := e1 + (e2 + (e3 + e4));
  }

  /** If no claim is decided, a rival's is, and page c loses. */
  lemma Decides(s: Sys, c: User) returns (es: seq<Event>)
    requires s.cap > 0 && s.lines == map[] && (s.winner.Some? <==> s.held.Some?)
    requires c in s.users && s.users[c].conn.None? && Losing(s, c) && s.users[c].page.rk.value.key in s.keys
    ensures CarefulRun(s, es)
    ensures var t := AfterRun(s, es);
      && t.cap == s.cap && t.lines.Keys <= t.loops.Keys && t.held.Some?
      && c in t.users && t.users[c] == s.users[c] && Losing(t, c)
  {
    es := [];
    if s.winner.None? {
      var f := FreshNat(s.users.Keys);
      var id := FreshId(s.loops.Keys);
      var k := FreshNat(s.keys);
      es := RivalWins(s, f, id, Drawn(k, ""));
    }
  }

  lemma ReconnectsAstray(s: Sys, c: User) returns (es: seq<Event>)
    requires s.cap > 0 && s.lines == map[] && s.held.Some?
    requires c in s.users && s.users[c].conn.None? && Losing(s, c)
    ensures CarefulRun(s, es) && !Agreement(AfterRun(s, es))
  {
    var id := FreshId(s.loops.Keys);
    var k1 := FreshNat(s.keys);
    var k2 := FreshNat(s.keys + {k1});
    assert Members(s.lines, s.room) == {} && HubViews.Elems([]) == {};
    var t := Reconnects(s, c, id, []);
    es := GoesAstray(t, c, id, Drawn(k1, ""), Drawn(k2, ""));
    RunStarts(s, Connects(c, id, []), es);
    es := [Connects(c, id, [])] + es;
  }

  /** Every careful continuation from here keeps all members on one key. */
  ghost predicate SafeFrom(s: Sys) {
    forall es :: CarefulRun(s, es) ==> Agreement(AfterRun(s, es))
  }

  lemma InvIsSafe(s: Sys)
    requires Inv(s)
    ensures SafeFrom(s)
  {
    forall es | CarefulRun(s, es) ensures Agreement(AfterRun(s, es)) {
      RunKeeps(s, es);
      InvAgrees(AfterRun(s, es));
    }
  }

  /** When may a page lose its connection?  Decided or not, and however full the room:
      exactly when it does not hold a key that is not the room's. */
  lemma CutOffIsSafeIff(s: Sys, c: User)
    requires Inv(s) && s.cap > 0 && Enabled(s, Closes(c))
    ensures SafeFrom(R.Next(s, Closes(c))) <==> !Losing(s, c)
  {
    var t := R.Next(s, Closes(c));
    assert HolderIs(s, c);
    if Losing(s, c) {
      var es := LoserBreaks(t, c);
    } else {
      CloseKeeps(s, c);
      InvIsSafe(t);
    }
  }

  /** And when may another page of the same browser open with the key it stored? */
  lemma CopyIsSafeIff(s: Sys, f: User, name: string, me: string, c: User)
    requires Inv(s) && s.cap > 0 && Enabled(s, Opens(f, name, me, Some(c)))
    ensures SafeFrom(R.Next(s, Opens(f, name, me, Some(c)))) <==> !Losing(s, c)
  {
    var t := R.Next(s, Opens(f, name, me, Some(c)));
    assert HolderIs(s, c);
    if Losing(s, c) {
      var es := LoserBreaks(t, f);
    } else {
      OpenKeeps(s, f, name, me, Some(c));
      InvIsSafe(t);
    }
  }

  /** What a page can see of itself suffices: without a key, or with no claim to create
      unanswered, it may be cut off and its key copied. */
  lemma SettledPageIsSafe(s: Sys, c: User)
    requires Inv(s) && s.cap > 0 && c in s.users
    requires s.users[c].page.rk.None? || !s.users[c].page.creating
    ensures !Losing(s, c)
    ensures Enabled(s, Closes(c)) ==> SafeFrom(R.Next(s, Closes(c)))
    ensures forall f, name, me :: Enabled(s, Opens(f, name, me, Some(c))) ==>
      SafeFrom(R.Next(s, Opens(f, name, me, Some(c))))
  {
    assert HolderIs(s, c);
    if Enabled(s, Closes(c)) { CutOffIsSafeIff(s, c); }
    forall f, name, me | Enabled(s, Opens(f, name, me, Some(c)))
      ensures SafeFrom(R.Next(s, Opens(f, name, me, Some(c))))
    {
      CopyIsSafeIff(s, f, name, me, c);
    }
  }
}
