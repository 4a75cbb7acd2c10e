/** Each page announces itself at most once to each other connection, for as long as its
    own connection lasts. */
module Announcements {
  import opened Wrappers
  import opened StoreSpec
  import opened Wire
  import opened HubSpec
  import H = HubSpec
  import HubViews
  import opened Browser
  import B = Browser
  import opened JoinSpec
  import J = JoinSpec
  import opened RoomSystem
  import R = RoomSystem
  import opened Discovery
  import opened DiscoveryRuns
  import opened ClaimCount

  /** The messages step e makes the page on connection a write in answer to one received. */
  function Answer(s: Sys, e: Event, a: Id): seq<Up>
    requires Enabled(s, e)
  {
    if e.Delivers? && e.id == a then B.OnServer(PageAt(s, a), s.loops[a].wire[0], e.drawn, s.vault).1 else []
  }

  predicate AnnouncesTo(us: seq<Up>, b: Id) {
    exists k :: 0 <= k < |us| && us[k].KxTo? && us[k].to == b
  }

  // ----- one answer -----

  /** Whom an announcement may be for. */
  predicate MayAnnounce(p: Page, m: Msg, x: Id) {
    x !in p.announced && (m == PeerJoined(x) || (m.Kx? && m.from == x) || (m.ClaimResult? && x in p.roomPeers))
  }

  ghost predicate OnceEach(us: seq<Up>) {
    forall j, k :: 0 <= j < k < |us| && us[j].KxTo? && us[k].KxTo? ==> us[j].to != us[k].to
  }

  lemma ConfirmedOnce(p: Page, m: Msg, drawn: Drawn)
    requires m.ClaimResult? && m.ok && p.rk.Some?
    ensures var us := B.OnClaimResult(p, m.ok, m.requests, m.inboxPub, drawn).1;
      OnceEach(us) && forall u :: u in us && u.KxTo? ==> MayAnnounce(p, m, u.to)
  {
    var p0 := p.(creating := false, claimed := true);
    AnnouncesEach(p0, p.roomPeers);
    var (p1, u1) := AnnounceAll(p0, p.roomPeers);
    var (_, u2) := OnClaimed(p1, m.requests, m.inboxPub, drawn);
    assert |u2| <= 1 && forall u :: u in u2 ==> u.ClaimRoom?;
    forall j, k | 0 <= j < k < |u1| && u1[j].KxTo? && u1[k].KxTo? ensures u1[j].to != u1[k].to {
      assert u1[j] in u1 && u1[k] in u1;
    }
  }

  lemma AnswerOnce(p: Page, m: Msg, drawn: Drawn, vault: Vault)
    requires Fitting(p, m)
    ensures var us := B.OnServer(p, m, drawn, vault).1;
      OnceEach(us) && forall u :: u in us && u.KxTo? ==> MayAnnounce(p, m, u.to)
  {
    if m.ClaimResult? && m.ok { ConfirmedOnce(p, m, drawn); }
  }

  // ----- what reaches a page, and when -----

  /** How what is under way to a connection may change in a step. */
  predicate Shifts(d: seq<Msg>, d': seq<Msg>, m: Msg) {
    d' == d || (d != [] && d' == d[1..]) || d' <= d || d' == d + [m]
  }

  /** Members are heard of when they join, and not after they left. */
  predicate Timely(s: Sys, t: Sys, m: Msg) {
    && (m.PeerJoined? ==> m.id !in s.loops)
    && (m.Kx? ==> m.from in s.lines && m.from in t.lines)
    && (m.PeerLeft? ==> m.id !in t.lines)
  }

  lemma ToldShifts(s: Sys, to: set<Id>, m: Msg, i: Id)
    requires i in s.loops
    ensures Shifts(Down(s, i), Down(Tell(s, to, m), i), m)
  {
    TellReaches(s, to, m, i);
  }

  lemma ReadShifts(s: Sys, e: Event, i: Id) returns (m: Msg)
    requires DiscoveryRuns.Inv(s) && e.Reads? && Enabled(s, e) && i in s.loops
    ensures Shifts(Down(s, i), Down(R.Next(s, e), i), m) && Timely(s, R.Next(s, e), m)
  {
    var l := s.loops[e.id];
    var u := l.up[0];
    var s1 := WithLoop(s, e.id, l.(up := l.up[1..]));
    assert Down(s1, i) == Down(s, i);
    if Forwarded(u) {
      m := Passed(e.id, u);
      if u.to != "" || u.RelayTo? { ToldShifts(s1, Targets(s1.lines, e.id, u.to), m, i); }
    } else {
      m := JoinRequests([], "");
      assert Down(R.Next(s, e), i) == Down(s, i);
    }
  }

  lemma TellingShifts(s: Sys, id: Id, list: seq<Request>, to: set<Id>, m: Msg, i: Id)
    requires Enabled(s, Acts(id, list)) && i in s.loops
    requires var t := WithLoop(s, id, s.loops[id].(todo := s.loops[id].todo[1..])); Acting(s, id, list) == Tell(t, to, m)
    ensures Shifts(Down(s, i), Down(Acting(s, id, list), i), m)
  {
    var t := WithLoop(s, id, s.loops[id].(todo := s.loops[id].todo[1..]));
    assert Down(t, i) == Down(s, i);
    ToldShifts(t, to, m, i);
  }

  lemma SilentActs(s: Sys, id: Id, list: seq<Request>, i: Id)
    requires Enabled(s, Acts(id, list)) && i in s.loops
    requires var x := s.loops[id].todo[0]; !x.Post? && !x.ToAll? && !x.Decided?
    ensures Down(Acting(s, id, list), i) == Down(s, i)
  {}

  lemma ActShifts(s: Sys, e: Event, i: Id) returns (m: Msg)
    requires DiscoveryRuns.Inv(s) && e.Acts? && Enabled(s, e) && i in s.loops
    ensures Shifts(Down(s, i), Down(R.Next(s, e), i), m) && Timely(s, R.Next(s, e), m)
  {
    var x := s.loops[e.id].todo[0];
    assert ConnIs(s, e.id) && OfficeAct(x);
    m := JoinRequests([], "");
    match x {
      case Post(p) => m := p; TellingShifts(s, e.id, e.list, {e.id}, m, i);
      case ToAll(p) => m := p; TellingShifts(s, e.id, e.list, Members(s.lines, s.room), m, i);
      case Decided(q) =>
        m := JoinStatus(Success(q), "");
        TellingShifts(s, e.id, e.list, Applicants(s.lines, s.room, q.id), m, i);
      case _ => SilentActs(s, e.id, e.list, i);
    }
  }

  lemma ComesAndGoesShifts(s: Sys, e: Event, i: Id) returns (m: Msg)
    requires DiscoveryRuns.Inv(s) && (e.Connects? || e.Greets? || e.Leaves?) && Enabled(s, e) && i in s.loops
    ensures Shifts(Down(s, i), Down(R.Next(s, e), i), m) && Timely(s, R.Next(s, e), m)
  {
    if e.Connects? {
      m := PeerJoined(e.id);
      ToldShifts(s, Members(s.lines, s.room), m, i);
      assert Down(R.Next(s, e), i) == Down(Tell(s, Members(s.lines, s.room), m), i);
    } else if e.Greets? {
      m := Welcome(e.id, s.loops[e.id].snapshot, s.held.Some?, e.list);
      var s1 := WithLoop(s, e.id, s.loops[e.id].(welcomed := true));
      assert Down(s1, i) == Down(s, i);
      ToldShifts(s1, {e.id}, m, i);
    } else {
      m := PeerLeft(e.id);
      var s1 := s.(lines := s.lines - {e.id});
      ToldShifts(s1, Members(s1.lines, s.lines[e.id].room), m, i);
      if i != e.id { assert Down(s1, i) == Down(s, i); }
    }
  }

  lemma PageShifts(s: Sys, e: Event, i: Id)
    requires DiscoveryRuns.Inv(s) && Enabled(s, e) && i in s.loops
    requires PageEvent(e) || e.Transmits?
    ensures Down(R.Next(s, e), i) == if e.Delivers? && e.id == i then Down(s, i)[1..] else Down(s, i)
  {
    if e.Transmits? && e.id == i {
      var w, q := s.loops[i].wire, s.lines[i].queue;
      assert (w + [q[0]]) + q[1..] == w + q;
    }
  }

  lemma DownShifts(s: Sys, e: Event, i: Id) returns (m: Msg)
    requires DiscoveryRuns.Inv(s) && Enabled(s, e) && i in s.loops
    ensures i in R.Next(s, e).loops
    ensures Shifts(Down(s, i), Down(R.Next(s, e), i), m) && Timely(s, R.Next(s, e), m)
  {
    LinesShift(s, e);
    if e.Reads? {
      m := ReadShifts(s, e, i);
    } else if e.Acts? {
      m := ActShifts(s, e, i);
    } else if e.Connects? || e.Greets? || e.Leaves? {
      m := ComesAndGoesShifts(s, e, i);
    } else {
      PageShifts(s, e, i);
      m := JoinRequests([], "");
    }
  }

  predicate PageEvent(e: Event) {
    e.Delivers? || e.Approves? || e.Rejects? || e.Adopts? || e.Closes? || e.Opens? || e.Purges?
  }

  lemma PageEventLines(s: Sys, e: Event)
    requires Enabled(s, e) && PageEvent(e)
    ensures R.Next(s, e).lines == s.lines && s.loops.Keys <= R.Next(s, e).loops.Keys
  {}

  /** Connections are only ever added, and their ids never used again. */
  lemma LinesShift(s: Sys, e: Event)
    requires DiscoveryRuns.Inv(s) && Enabled(s, e)
    ensures s.loops.Keys <= R.Next(s, e).loops.Keys
    ensures forall i :: i in s.loops && i in R.Next(s, e).lines ==> i in s.lines
  {
    if PageEvent(e) { PageEventLines(s, e); }
  }

  // ----- nobody is heard of after leaving -----

  predicate From(m: Msg, x: Id) {
    m == PeerJoined(x) || (m.Kx? && m.from == x)
  }

  ghost predicate LeftIsLast(lines: set<Id>, d: seq<Msg>) {
    && (forall m :: m in d && m.PeerLeft? ==> m.id !in lines)
    && (forall j, k :: 0 <= j < k < |d| && d[j].PeerLeft? ==> !From(d[k], d[j].id))
  }

  ghost predicate LeftIs(s: Sys, i: Id) {
    i in s.loops ==> LeftIsLast(s.lines.Keys, Down(s, i))
  }

  lemma LeftTail(lines: set<Id>, d: seq<Msg>)
    requires LeftIsLast(lines, d) && d != []
    ensures LeftIsLast(lines, d[1..])
    ensures d[0].PeerLeft? ==> forall m :: m in d[1..] ==> !From(m, d[0].id)
  {
    assert forall j :: 0 <= j < |d[1..]| ==> d[1..][j] == d[j + 1];
  }

  lemma LeftMore(lines: set<Id>, d: seq<Msg>, m: Msg)
    requires LeftIsLast(lines, d) && (m.PeerLeft? ==> m.id !in lines)
    requires forall n :: n in d && n.PeerLeft? ==> !From(m, n.id)
    ensures LeftIsLast(lines, d + [m])
  {
    assert forall n :: n in d + [m] <==> n in d || n == m;
  }

  lemma LeftShifts(lines: set<Id>, d: seq<Msg>, d': seq<Msg>, m: Msg)
    requires LeftIsLast(lines, d) && Shifts(d, d', m) && (m.PeerLeft? ==> m.id !in lines)
    requires forall n :: n in d && n.PeerLeft? ==> !From(m, n.id)
    ensures LeftIsLast(lines, d')
  {
    if d' == d + [m] {
      LeftMore(lines, d, m);
    } else if d != [] && d' == d[1..] {
      LeftTail(lines, d);
    }
  }

  lemma LeftStep(s: Sys, e: Event, i: Id)
    requires DiscoveryRuns.Inv(s) && Enabled(s, e) && LeftIs(s, i)
    ensures LeftIs(R.Next(s, e), i)
  {
    var t := R.Next(s, e);
    if i in s.loops {
      LinesShift(s, e);
      var m := DownShifts(s, e, i);
      assert ConnIs(s, i);
      forall n | n in Down(s, i) && n.PeerLeft? ensures n.id !in t.lines && !From(m, n.id) {
        assert About(n) <= s.loops.Keys;
      }
      assert LeftIsLast(t.lines.Keys, Down(s, i));
      LeftShifts(t.lines.Keys, Down(s, i), Down(t, i), m);
    } else if i in t.loops {
      NewDown(s, e, i);
    }
  }

  lemma NewDown(s: Sys, e: Event, i: Id)
    requires DiscoveryRuns.Inv(s) && Enabled(s, e) && i !in s.loops && i in R.Next(s, e).loops
    ensures Down(R.Next(s, e), i) == []
  {
    if !e.Connects? { NoNewLoop(s, e); }
  }

  lemma NoNewLoop(s: Sys, e: Event)
    requires Enabled(s, e) && !e.Connects?
    ensures R.Next(s, e).loops.Keys <= s.loops.Keys
  {}

  // ----- an announcement is remembered -----

  /** b has gone, and nothing that would make a page announce itself to it can come. */
  ghost predicate Gone(s: Sys, a: Id, b: Id)
    requires OpenAt(s, a)
  {
    b !in s.lines && b !in PageAt(s, a).roomPeers && forall m :: m in Down(s, a) ==> !From(m, b)
  }

  /** The page on a, while it lasts, has announced itself to b. */
  ghost predicate Told(s: Sys, a: Id, b: Id) {
    && a in s.loops && b in s.loops
    && (OpenAt(s, a) ==> PageAt(s, a).claimed && (b in PageAt(s, a).announced || Gone(s, a, b)))
  }

  ghost predicate Good(s: Sys) {
    DiscoveryRuns.Inv(s) && forall i :: LeftIs(s, i)
  }

  lemma GoodStep(s: Sys, e: Event)
    requires Good(s) && Enabled(s, e)
    ensures Good(R.Next(s, e))
  {
    StepKeeps(s, e);
    forall i ensures LeftIs(R.Next(s, e), i) { LeftStep(s, e, i); }
  }

  /** A step of the server leaves the pages as they are. */
  lemma ToldByServer(s: Sys, e: Event, a: Id, b: Id)
    requires Good(s) && Enabled(s, e) && Told(s, a, b)
    requires !(e.Delivers? && e.id == a)
    ensures Told(R.Next(s, e), a, b)
  {
    var t := R.Next(s, e);
    LinesShift(s, e);
    if OpenAt(t, a) {
      OtherPages(s, e, a);
      if b !in PageAt(s, a).announced {
        var m := DownShifts(s, e, a);
        ShiftsAddOne(Down(s, a), Down(t, a), m);
      }
    }
  }

  lemma ShiftsAddOne(d: seq<Msg>, d': seq<Msg>, m: Msg)
    requires Shifts(d, d', m)
    ensures forall n :: n in d' ==> n in d || n == m
  {
    assert d' <= d ==> forall n :: n in d' ==> n in d;
  }

  /** Another event changes neither members, peers nor standing of the page on a. */
  lemma OtherPages(s: Sys, e: Event, a: Id)
    requires DiscoveryRuns.Inv(s) && Enabled(s, e) && a in s.loops && !(e.Delivers? && e.id == a)
    requires OpenAt(R.Next(s, e), a)
    ensures OpenAt(s, a)
    ensures var p, p' := PageAt(s, a), PageAt(R.Next(s, e), a);
      p'.claimed == p.claimed && p'.announced == p.announced && p'.roomPeers == p.roomPeers
  {
    assert VisitorIs(s, s.loops[a].owner);
    if !PageEvent(e) && !e.Connects? { ServerEventUsers(s, e, a); }
  }

  lemma ServerEventUsers(s: Sys, e: Event, a: Id)
    requires DiscoveryRuns.Inv(s) && Enabled(s, e) && !PageEvent(e) && !e.Connects? && a in s.loops
    ensures R.Next(s, e).users == s.users
    ensures a in R.Next(s, e).loops && R.Next(s, e).loops[a].owner == s.loops[a].owner
  {
    match e
    case Reads(id, now) => assert R.Next(s, e) == Reading(s, id, now);
    case Acts(id, list) => ActingUsers(s, id, list, a);
    case _ =>
  }

  lemma ActingUsers(s: Sys, id: Id, list: seq<Request>, a: Id)
    requires Enabled(s, Acts(id, list)) && a in s.loops
    ensures Acting(s, id, list).users == s.users && a in Acting(s, id, list).loops
    ensures Acting(s, id, list).loops[a].owner == s.loops[a].owner
  {}

  /** A page hears of members only by their joining, once it was welcomed. */
  lemma HearsOf(p: Page, m: Msg, drawn: Drawn, vault: Vault)
    requires Fitting(p, m) && !m.Welcome?
    ensures forall x :: x in B.OnServer(p, m, drawn, vault).0.roomPeers ==> x in p.roomPeers || From(m, x)
    ensures m.PeerLeft? ==> B.OnServer(p, m, drawn, vault) == (OnPeerLeft(p, m.id), [])
  {
    if m.PeerLeft? {
      DropPeerHas(p.roomPeers, m.id);
    } else if m.ClaimResult? && m.ok {
      AnnouncesEach(p.(creating := false, claimed := true), p.roomPeers);
    }
  }

  /** What is known of the message the page on a handles next. */
  lemma NextMessage(s: Sys, e: Event, a: Id, b: Id)
    requires Good(s) && Enabled(s, e) && Told(s, a, b) && e.Delivers? && e.id == a
    ensures var d := Down(s, a);
      && d != [] && d[0] == s.loops[a].wire[0] && Down(R.Next(s, e), a) == d[1..] && !d[0].Welcome?
      && (forall n :: n in d[1..] ==> n in d)
      && (d[0].PeerLeft? ==> d[0].id !in s.lines && forall n :: n in d[1..] ==> !From(n, d[0].id))
  {
    var p, d := PageAt(s, a), Down(s, a);
    var (p', us) := B.OnServer(p, s.loops[a].wire[0], e.drawn, s.vault);
    assert ConnIs(s, a) && LeftIs(s, a);
    Delivered(s, a, e.drawn, p', us);
    LeftTail(s.lines.Keys, d);
    assert d[0] in d;
    if d[0].Welcome? { CountZero(d, WelcomeMsg, d[0]); }
  }

  lemma ToldByPage(s: Sys, e: Event, a: Id, b: Id)
    requires Good(s) && Enabled(s, e) && Told(s, a, b) && e.Delivers? && e.id == a
    ensures Told(R.Next(s, e), a, b) && !AnnouncesTo(Answer(s, e, a), b)
  {
    var t := R.Next(s, e);
    var p, d := PageAt(s, a), Down(s, a);
    var (p', us) := B.OnServer(p, s.loops[a].wire[0], e.drawn, s.vault);
    NextMessage(s, e, a, b);
    Delivered(s, a, e.drawn, p', us);
    assert ConnIs(s, a);
    Replied(s.loops.Keys, p, s.loops[a], d, e.drawn, s.vault);
    EffectOf(p, d[0], e.drawn, s.vault);
    AnswerOnce(p, d[0], e.drawn, s.vault);
    HearsOf(p, d[0], e.drawn, s.vault);
    StaysTold(s, t, a, b, p, d[0], p', us);
  }

  lemma StaysTold(s: Sys, t: Sys, a: Id, b: Id, p: Page, m: Msg, p': Page, us: seq<Up>)
    requires OpenAt(s, a) && OpenAt(t, a) && PageAt(s, a) == p && PageAt(t, a) == p' && t.lines == s.lines
    requires Told(s, a, b) && a in t.loops && b in t.loops
    requires m in Down(s, a) && forall n :: n in Down(t, a) ==> n in Down(s, a)
    requires m.PeerLeft? ==> m.id !in s.lines && forall n :: n in Down(t, a) ==> !From(n, m.id)
    requires HasEffect(p, m, p', us) && !m.Welcome?
    requires (p', us) == (OnPeerLeft(p, b), []) || m != PeerLeft(b)
    requires forall x :: x in p'.roomPeers ==> x in p.roomPeers || From(m, x)
    requires forall u :: u in us && u.KxTo? ==> MayAnnounce(p, m, u.to)
    ensures Told(t, a, b) && !AnnouncesTo(us, b)
  {
    if m == PeerLeft(b) { DropPeerHas(p.roomPeers, b); }
  }

  // ----- runs -----

  /** No later answer on a announces to b. */
  ghost predicate NeverAgain(s: Sys, es: seq<Event>, a: Id, b: Id)
    requires R.Run(s, es)
    decreases |es|
  {
    es == [] || (!AnnouncesTo(Answer(s, es[0], a), b) && NeverAgain(R.Next(s, es[0]), es[1..], a, b))
  }

  lemma {:induction false} ToldOnce(s: Sys, es: seq<Event>, a: Id, b: Id)
    requires Good(s) && R.Run(s, es) && Told(s, a, b)
    ensures NeverAgain(s, es, a, b)
    decreases |es|
  {
    if es != [] {
      var e := es[0];
      GoodStep(s, e);
      if e.Delivers? && e.id == a { ToldByPage(s, e, a, b); } else { ToldByServer(s, e, a, b); }
      ToldOnce(R.Next(s, e), es[1..], a, b);
    }
  }

  lemma {:induction false} RunIsGood(s: Sys, es: seq<Event>)
    requires Good(s) && R.Run(s, es)
    ensures Good(R.After(s, es))
    decreases |es|
  {
    if es != [] {
      GoodStep(s, es[0]);
      RunIsGood(R.Next(s, es[0]), es[1..]);
    }
  }

  lemma InitGood(cap: nat, room: string, retention: int)
    ensures Good(Init(cap, room, retention))
  {
    var s := Init(cap, room, retention);
    assert forall i :: ConnIs(s, i);
    assert forall i, j :: PairIs(s, i, j);
    assert forall c :: VisitorIs(s, c);
    assert forall i :: LeftIs(s, i);
  }

  /** An answer that announces to b leaves the page remembering it. */
  lemma BecomesTold(s: Sys, e: Event, a: Id, b: Id)
    requires Good(s) && Enabled(s, e) && AnnouncesTo(Answer(s, e, a), b)
    ensures Told(R.Next(s, e), a, b) && OnceEach(Answer(s, e, a))
  {
    var p, d := PageAt(s, a), Down(s, a);
    var (p', us) := B.OnServer(p, s.loops[a].wire[0], e.drawn, s.vault);
    Delivered(s, a, e.drawn, p', us);
    assert ConnIs(s, a);
    Replied(s.loops.Keys, p, s.loops[a], d, e.drawn, s.vault);
    EffectOf(p, d[0], e.drawn, s.vault);
    AnswerOnce(p, d[0], e.drawn, s.vault);
    Announced(p, d[0], e.drawn, s.vault, b);
    assert d[0] in d;
  }

  lemma Announced(p: Page, m: Msg, drawn: Drawn, vault: Vault, b: Id)
    requires Steady(p) && Fitting(p, m) && AnnouncesTo(B.OnServer(p, m, drawn, vault).1, b)
    ensures var p' := B.OnServer(p, m, drawn, vault).0; p'.claimed && b in p'.announced
    ensures b in HubViews.Elems(p.roomPeers) + About(m)
  {
    var us := B.OnServer(p, m, drawn, vault).1;
    AnswerOnce(p, m, drawn, vault);
    EffectOf(p, m, drawn, vault);
    var k :| 0 <= k < |us| && us[k].KxTo? && us[k].to == b;
    assert us[k] in us;
    if m.ClaimResult? && m.ok {
      AnnouncesEach(p.(creating := false, claimed := true), p.roomPeers);
    }
  }

  /** Main result: in every run, each connection announces itself to each other at most
      once: not twice in one answer, and never again in a later one. */
  lemma OneAnnouncementEach(cap: nat, room: string, retention: int,
                            before: seq<Event>, e: Event, after: seq<Event>, a: Id, b: Id)
    requires R.Run(Init(cap, room, retention), before)
    requires Enabled(R.After(Init(cap, room, retention), before), e)
    requires R.Run(R.Next(R.After(Init(cap, room, retention), before), e), after)
    requires AnnouncesTo(Answer(R.After(Init(cap, room, retention), before), e, a), b)
    ensures OnceEach(Answer(R.After(Init(cap, room, retention), before), e, a))
    ensures NeverAgain(R.Next(R.After(Init(cap, room, retention), before), e), after, a, b)
  {
    InitGood(cap, room, retention);
    RunIsGood(Init(cap, room, retention), before);
    var s := R.After(Init(cap, room, retention), before);
    BecomesTold(s, e, a, b);
    GoodStep(s, e);
    ToldOnce(R.Next(s, e), after, a, b);
  }
}
