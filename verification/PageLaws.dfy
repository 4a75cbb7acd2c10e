/** What the handlers of a room page amount to: laws over everything a page may live
    through, and round trips between pages and the room's server. */
module PageLaws {
  import opened Wrappers
  import opened StoreSpec
  import S = StoreSpec
  import opened Wire
  import opened Browser
  import B = Browser
  import J = JoinSpec
  import R = RoomSystem
  import opened ClaimCount

  // ----- the life of a page -----

  /** A message from the server, the room's inbox key from a peer, or the end of the
      connection. */
  datatype PageEvent =
    | Hears(msg: Msg, drawn: Drawn, vault: Vault)
    | Adopts(inbox: string)
    | Loses

  function Step(p: Page, e: PageEvent): Reply {
    match e
    case Hears(m, drawn, vault) => B.OnServer(p, m, drawn, vault)
    case Adopts(inbox) => if p.rk.None? then (p, []) else AdoptInbox(p, inbox)
    case Loses => (OnClose(p), [])
  }

  function Live(p: Page, es: seq<PageEvent>): Reply {
    if es == [] then (p, [])
    else
      var (p1, u1) := Live(p, es[..|es| - 1]);
      var (p2, u2) := Step(p1, es[|es| - 1]);
      (p2, u1 + u2)
  }

  // ----- one announcement, one first signal -----

  function KxFor(x: Id): Up -> bool { (u: Up) => u.KxTo? && u.to == x }

  function SignalFor(x: Id): Up -> bool { (u: Up) => u.SignalTo? && u.to == x }

  predicate Forgets(x: Id, e: PageEvent) {
    e.Loses? || (e.Hears? && e.msg == PeerLeft(x))
  }

  function ForgetsOf(x: Id): PageEvent -> bool { (e: PageEvent) => Forgets(x, e) }

  function Has(s: set<Id>, x: Id): nat { if x in s then 1 else 0 }

  lemma NoneOf(us: seq<Up>, x: Id)
    requires forall u :: u in us ==> !u.KxTo? && !u.SignalTo?
    ensures Count(us, KxFor(x)) == Count(us, SignalFor(x)) == 0
  {
    CountNone(us, KxFor(x));
    CountNone(us, SignalFor(x));
  }

  lemma CountBoth(us: seq<Up>, more: seq<Up>, x: Id)
    ensures Count(us + more, KxFor(x)) == Count(us, KxFor(x)) + Count(more, KxFor(x))
    ensures Count(us + more, SignalFor(x)) == Count(us, SignalFor(x)) + Count(more, SignalFor(x))
  {
    CountConcat(us, more, KxFor(x));
    CountConcat(us, more, SignalFor(x));
  }

  lemma AnnounceCounts(p: Page, id: Id, x: Id)
    ensures var (p', u) := Announce(p, id);
      && p'.peers == p.peers && Count(u, SignalFor(x)) == 0
      && Count(u, KxFor(x)) + Has(p.announced, x) == Has(p'.announced, x)
  {
    var (p', u) := Announce(p, id);
    if u != [] {
      CountOne(u[0], KxFor(x));
      CountOne(u[0], SignalFor(x));
    }
  }

  lemma EnsureCounts(p: Page, id: Id, x: Id)
    ensures var (p', u) := EnsurePeer(p, id);
      && p'.announced == p.announced && Count(u, KxFor(x)) == 0
      && Count(u, SignalFor(x)) + Has(p.peers, x) == Has(p'.peers, x)
  {
    var (p', u) := EnsurePeer(p, id);
    if u != [] {
      CountOne(u[0], KxFor(x));
      CountOne(u[0], SignalFor(x));
    }
  }

  lemma {:induction false} AnnounceAllCounts(p: Page, ids: seq<Id>, x: Id)
    ensures var (p', u) := AnnounceAll(p, ids);
      && p'.peers == p.peers && Count(u, SignalFor(x)) == 0
      && Count(u, KxFor(x)) + Has(p.announced, x) == Has(p'.announced, x)
  {
    if ids != [] {
      AnnounceAllCounts(p, ids[..|ids| - 1], x);
      var (p1, u1) := AnnounceAll(p, ids[..|ids| - 1]);
      AnnounceCounts(p1, ids[|ids| - 1], x);
      CountBoth(u1, Announce(p1, ids[|ids| - 1]).1, x);
    }
  }

  lemma KxCounts(p: Page, from: Id, k: Key, x: Id)
    ensures var (p', u) := OnKx(p, from, k);
      && Count(u, KxFor(x)) + Has(p.announced, x) == Has(p'.announced, x)
      && Count(u, SignalFor(x)) + Has(p.peers, x) == Has(p'.peers, x)
  {
    if Keyed(p) == Some(k) {
      var (p1, u1) := Announce(p, from);
      AnnounceCounts(p, from, x);
      EnsureCounts(p1, from, x);
      CountBoth(u1, EnsurePeer(p1, from).1, x);
    }
  }

  lemma ConfirmedCounts(p: Page, list: seq<Request>, inboxPub: string, drawn: Drawn, x: Id)
    ensures var (p', u) := OnClaimResult(p, true, list, inboxPub, drawn);
      && Count(u, KxFor(x)) + Has(p.announced, x) == Has(p'.announced, x)
      && Count(u, SignalFor(x)) + Has(p.peers, x) == Has(p'.peers, x)
  {
    var p0 := p.(creating := false, claimed := true);
    var (p1, u1) := AnnounceAll(p0, p.roomPeers);
    var (p2, u2) := OnClaimed(p1, list, inboxPub, drawn);
    AnnounceAllCounts(p0, p.roomPeers, x);
    NoneOf(u2, x);
    CountBoth(u1, u2, x);
    assert p2.announced == p1.announced && p2.peers == p1.peers;
  }

  predicate Accounts(p: Page, x: Id, r: Reply) {
    && Count(r.1, KxFor(x)) + Has(p.announced, x) == Has(r.0.announced, x)
    && Count(r.1, SignalFor(x)) + Has(p.peers, x) == Has(r.0.peers, x)
  }

  /** Nothing else is written to a peer. */
  lemma OfficeCounts(p: Page, m: Msg, drawn: Drawn, vault: Vault, x: Id)
    requires m.Welcome? || m.JoinStatus? || m.JoinRequests? || m.JoinPost? || m.JoinPostError? || (m.ClaimResult? && !m.ok)
    ensures Accounts(p, x, B.OnServer(p, m, drawn, vault))
  {
    NoneOf(B.OnServer(p, m, drawn, vault).1, x);
  }

  lemma MessageCounts(p: Page, m: Msg, drawn: Drawn, vault: Vault, x: Id)
    requires m != PeerLeft(x)
    ensures Accounts(p, x, B.OnServer(p, m, drawn, vault))
  {
    match m
    case PeerJoined(id) => AnnounceCounts(p.(roomPeers := AddPeer(p.roomPeers, id)), id, x);
    case PeerLeft(id) => NoneOf([], x);
    case Kx(from, k) => KxCounts(p, from, k, x);
    case Signal(from, _) => EnsureCounts(p, from, x); NoneOf([], x);
    case Relay(from, _) => EnsureCounts(p, from, x); NoneOf([], x);
    case ClaimResult(ok, list, inboxPub) =>
      if ok { ConfirmedCounts(p, list, inboxPub, drawn, x); } else { OfficeCounts(p, m, drawn, vault, x); }
    case _ => OfficeCounts(p, m, drawn, vault, x);
  }

  /** Each event accounts for what it makes the page write to x by what it remembers of x. */
  lemma StepCounts(p: Page, e: PageEvent, x: Id)
    ensures var (p', u) := Step(p, e);
      if Forgets(x, e) then u == [] && x !in p'.announced && x !in p'.peers else Accounts(p, x, (p', u))
  {
    match e
    case Hears(m, drawn, vault) => if m != PeerLeft(x) { MessageCounts(p, m, drawn, vault, x); }
    case Adopts(_) => NoneOf(Step(p, e).1, x);
    case Loses =>
  }

  /** A page announces itself to x, and makes it a peer, at most once more than it is told
      that x left or loses its connection; in between, once exactly if it comes to
      remember x. */
  lemma {:induction false} OnceForEachPeer(p: Page, es: seq<PageEvent>, x: Id)
    ensures var ((p', us), n) := (Live(p, es), Count(es, ForgetsOf(x)));
      && Count(us, KxFor(x)) + Has(p.announced, x) <= Has(p'.announced, x) + n
      && Count(us, SignalFor(x)) + Has(p.peers, x) <= Has(p'.peers, x) + n
      && (n == 0 ==> Count(us, KxFor(x)) + Has(p.announced, x) == Has(p'.announced, x))
      && (n == 0 ==> Count(us, SignalFor(x)) + Has(p.peers, x) == Has(p'.peers, x))
  {
    if es != [] {
      OnceForEachPeer(p, es[..|es| - 1], x);
      var (p1, u1) := Live(p, es[..|es| - 1]);
      StepCounts(p1, es[|es| - 1], x);
      CountBoth(u1, Step(p1, es[|es| - 1]).1, x);
      if Forgets(x, es[|es| - 1]) { NoneOf([], x); }
    }
  }

  // ----- where a key comes from, and how long it stays -----

  predicate Refused(e: PageEvent) {
    e.Hears? && e.msg.ClaimResult? && !e.msg.ok
  }

  /** The message brings key k: one drawn for an unknown room, or one sealed for me. */
  predicate Brings(me: string, e: PageEvent, k: Key) {
    e.Hears? && match e.msg
      case Welcome(_, _, known, _) => !known && e.drawn.key == k
      case JoinStatus(status, _) =>
        && status.Success? && status.value.status == Approved
        && var got := Unwrap(e.vault, me, status.value.approverPub, status.value.wrap);
           got.Some? && got.value.key == k
      case _ => false
  }

  lemma {:induction false} AnnouncesOnly(p: Page, ids: seq<Id>)
    ensures AnnounceAll(p, ids).0 == p.(announced := AnnounceAll(p, ids).0.announced)
  {
    if ids != [] { AnnouncesOnly(p, ids[..|ids| - 1]); }
  }

  predicate KeyMoves(p: Page, e: PageEvent, p': Page) {
    && p'.me == p.me
    && (p.rk.Some? && !Refused(e) ==> Keyed(p') == Keyed(p))
    && (Refused(e) ==> p'.rk.None?)
    && (p'.rk.Some? && Keyed(p') != Keyed(p) ==> p.rk.None? && Brings(p.me, e, p'.rk.value.key))
    && (p'.claimed && !p.claimed ==> e.Hears? && e.msg.ClaimResult? && e.msg.ok)
    && (e.Loses? ==> !p'.claimed)
  }

  lemma MessageKey(p: Page, e: PageEvent)
    requires e.Hears? && !e.msg.ClaimResult?
    ensures KeyMoves(p, e, Step(p, e).0)
  {}

  lemma ResultKey(p: Page, e: PageEvent)
    requires e.Hears? && e.msg.ClaimResult?
    ensures KeyMoves(p, e, Step(p, e).0)
  {
    AnnouncesOnly(p.(creating := false, claimed := true), p.roomPeers);
  }

  lemma StepKey(p: Page, e: PageEvent)
    ensures KeyMoves(p, e, Step(p, e).0)
  {
    if e.Hears? {
      if e.msg.ClaimResult? { ResultKey(p, e); } else { MessageKey(p, e); }
    }
  }

  /** A key stays until a claim is refused, whatever else happens. */
  lemma {:induction false} KeyEndures(p: Page, es: seq<PageEvent>)
    requires p.rk.Some? && forall e :: e in es ==> !Refused(e)
    ensures Keyed(Live(p, es).0) == Keyed(p)
  {
    if es != [] {
      assert forall e :: e in es[..|es| - 1] ==> e in es;
      KeyEndures(p, es[..|es| - 1]);
      StepKey(Live(p, es[..|es| - 1]).0, es[|es| - 1]);
    }
  }

  /** A page's key is the one it had, was drawn by it for a room the server did not know,
      or came out of an approval sealed for it. */
  lemma {:induction false} KeyHasSource(p: Page, es: seq<PageEvent>)
    ensures var p' := Live(p, es).0;
      && p'.me == p.me
      && (p'.rk.Some? && Keyed(p') != Keyed(p) ==> exists e :: e in es && Brings(p.me, e, p'.rk.value.key))
  {
    if es != [] {
      var last := es[|es| - 1];
      KeyHasSource(p, es[..|es| - 1]);
      StepKey(Live(p, es[..|es| - 1]).0, last);
      assert last in es && forall e :: e in es[..|es| - 1] ==> e in es;
    }
  }

  predicate Confirms(e: PageEvent) {
    e.Hears? && e.msg.ClaimResult? && e.msg.ok
  }

  /** Event j confirms the page, and the connection lasts from then on. */
  ghost predicate ConfirmedAt(es: seq<PageEvent>, j: int) {
    0 <= j < |es| && Confirms(es[j]) && forall k :: j < k < |es| ==> !es[k].Loses?
  }

  lemma ConfirmedLater(es: seq<PageEvent>, j: int)
    requires es != [] && ConfirmedAt(es[..|es| - 1], j) && !es[|es| - 1].Loses?
    ensures ConfirmedAt(es, j)
  {
    var before := es[..|es| - 1];
    assert before[j] == es[j];
    forall k | j < k < |es| ensures !es[k].Loses? {
      if k < |es| - 1 { assert before[k] == es[k]; }
    }
  }

  /** A page counts itself a member only on the server's word on this connection. */
  lemma {:induction false} ConfirmedByTheServer(p: Page, es: seq<PageEvent>)
    requires !p.claimed && Live(p, es).0.claimed
    ensures exists j :: ConfirmedAt(es, j)
  {
    var n := |es| - 1;
    StepKey(Live(p, es[..n]).0, es[n]);
    if Live(p, es[..n]).0.claimed {
      ConfirmedByTheServer(p, es[..n]);
      var j :| ConfirmedAt(es[..n], j);
      ConfirmedLater(es, j);
    } else {
      assert ConfirmedAt(es, n);
    }
  }

  // ----- two pages -----

  /** What b wrote to us, as it arrives. */
  function Carried(b: Id, us: seq<Up>, drawn: Drawn, vault: Vault): seq<PageEvent>
    requires forall u :: u in us ==> J.Forwarded(u)
  {
    if us == [] then []
    else Carried(b, us[..|us| - 1], drawn, vault) + [Hears(R.Passed(b, us[|us| - 1]), drawn, vault)]
  }

  /** The signal that ends an answer makes its sender a peer. */
  lemma SignalLands(b: Id, p: Page, us: seq<Up>, u: Up, drawn: Drawn, vault: Vault)
    requires p.rk.Some? && u.SignalTo? && u.box == Box(p.rk.value.key)
    requires forall v :: v in us ==> v.KxTo?
    ensures b in Live(p, Carried(b, us + [u], drawn, vault)).0.peers
  {
    var es, last := Carried(b, us, drawn, vault), Hears(Signal(b, u.box), drawn, vault);
    CarriedLast(b, us, u, drawn, vault);
    LiveLast(p, es, last);
    CarriedKx(b, us, drawn, vault);
    KeyEndures(p, es);
    SignalMakesPeer(Live(p, es).0, b, u.box, drawn, vault);
  }

  lemma SignalMakesPeer(p: Page, b: Id, box: Box, drawn: Drawn, vault: Vault)
    requires Keyed(p) == Some(box.key)
    ensures b in Step(p, Hears(Signal(b, box), drawn, vault)).0.peers
  {}

  lemma CarriedLast(b: Id, us: seq<Up>, u: Up, drawn: Drawn, vault: Vault)
    requires (forall v :: v in us ==> J.Forwarded(v)) && J.Forwarded(u)
    ensures Carried(b, us + [u], drawn, vault) == Carried(b, us, drawn, vault) + [Hears(R.Passed(b, u), drawn, vault)]
  {
    assert (us + [u])[..|us + [u]| - 1] == us;
  }

  lemma LiveLast(p: Page, es: seq<PageEvent>, last: PageEvent)
    ensures Live(p, es + [last]).0 == Step(Live(p, es).0, last).0
  {
    assert (es + [last])[..|es + [last]| - 1] == es;
  }

  lemma {:induction false} CarriedKx(b: Id, us: seq<Up>, drawn: Drawn, vault: Vault)
    requires forall v :: v in us ==> v.KxTo?
    ensures forall e :: e in Carried(b, us, drawn, vault) ==> !Refused(e)
  {
    if us != [] { CarriedKx(b, us[..|us| - 1], drawn, vault); }
  }

  /** Page p announces itself to page q, which answers: both make a peer of the other
      exactly if they hold the same key. */
  lemma PeersIffSameKey(a: Id, p: Page, b: Id, q: Page, drawn: Drawn, vault: Vault)
    requires p.rk.Some? && q.rk.Some? && b !in p.peers && a !in q.peers
    ensures var (q', us) := OnKx(q, a, p.rk.value.key);
      && (forall u :: u in us ==> J.Forwarded(u) && u.to == a)
      && (a in q'.peers <==> Keyed(p) == Keyed(q))
      && (KxTo(a, p.rk.value.key) in us <==> Keyed(p) == Keyed(q) && q.claimed && a !in q.announced)
      && (b in Live(p, Carried(b, us, drawn, vault)).0.peers <==> Keyed(p) == Keyed(q))
  {
    var k := p.rk.value.key;
    if Keyed(p) == Keyed(q) {
      var u1 := KxAnswered(q, a, k);
      SignalLands(b, p, u1, SignalTo(a, Box(k)), drawn, vault);
    } else {
      assert OnKx(q, a, k) == (q, []);
    }
  }

  lemma KxAnswered(q: Page, a: Id, k: Key) returns (u1: seq<Up>)
    requires Keyed(q) == Some(k) && a !in q.peers
    ensures forall u :: u in u1 ==> u.KxTo? && u.to == a
    ensures OnKx(q, a, k).1 == u1 + [SignalTo(a, Box(k))] && a in OnKx(q, a, k).0.peers
    ensures KxTo(a, k) in u1 <==> q.claimed && a !in q.announced
  {
    u1 := Announce(q, a).1;
  }

  /** A sealed message makes its sender a peer exactly if it opens under our key. */
  lemma PeerIffOpens(p: Page, from: Id, box: Box, drawn: Drawn, vault: Vault, x: Id)
    ensures forall m :: m in {Signal(from, box), Relay(from, box)} ==>
      (x in B.OnServer(p, m, drawn, vault).0.peers <==> x in p.peers || (x == from && Keyed(p) == Some(box.key)))
  {}

  lemma {:induction false} DropAbsent(ids: seq<Id>, x: Id)
    requires x !in ids
    ensures DropPeer(ids, x) == ids
  {
    if ids != [] {
      DropAbsent(ids[..|ids| - 1], x);
      SplitLast(ids);
    }
  }

  lemma AddedAndDropped(ids: seq<Id>, x: Id)
    requires x !in ids
    ensures DropPeer(AddPeer(ids, x), x) == ids
  {
    DropAbsent(ids, x);
    assert (ids + [x])[..|ids|] == ids;
  }

  /** Someone who comes and goes leaves no trace. */
  lemma LeaveUndoesJoin(p: Page, x: Id, drawn: Drawn, vault: Vault)
    requires x !in p.roomPeers && x !in p.announced && x !in p.peers
    ensures var p1 := B.OnServer(p, PeerJoined(x), drawn, vault).0;
      B.OnServer(p1, PeerLeft(x), drawn, vault) == (p, [])
  {
    AddedAndDropped(p.roomPeers, x);
    var p1 := B.OnServer(p, PeerJoined(x), drawn, vault).0;
    assert p1 == p.(roomPeers := AddPeer(p.roomPeers, x), announced := p1.announced);
    assert p1.announced - {x} == p.announced;
    assert p1.peers - {x} == p.peers;
  }

  // ----- a page and the server -----

  /** A page without a key, greeted by the server: it creates the room if there was none
      when it was greeted and still none when its claim was read; otherwise it ends up
      applying, without a key. */
  lemma CreateOrApply(p: Page, id: Id, members: seq<Id>, before: Option<Room>, held: Option<Room>, at: int,
                      list: seq<Request>, d1: Drawn, d2: Drawn, vault: Vault)
    requires p.rk.None? && !p.claimed && (before.Some? ==> held.Some?)
    ensures var (p1, u1) := B.OnServer(p, Welcome(id, members, before.Some?, list), d1, vault);
      if before.Some? then p1.rk.None? && !p1.claimed && u1 == [AskToJoin(p.name, p.me)]
      else
        && u1 == [ClaimRoom(true, d1.inbox)]
        && var (r, ok) := S.Claim(held, at, true, d1.inbox);
           var (p2, u2) := B.OnServer(p1, J.AnswerMsg(r, ok, list), d2, vault);
           && r.Some? && p2.claimed == ok == held.None? && !p2.creating
           && (ok ==> Keyed(p2) == Some(d1.key))
           && (!ok ==> p2.rk.None? && u2 == [AskToJoin(p.name, p.me)] && r == held)
  {
    if before.None? {
      AnnouncesOnly(p.(rk := Some(RoomKey(d1.key, d1.inbox)), roomPeers := AddPeers(p.roomPeers, members),
                       creating := false, claimed := true), AddPeers(p.roomPeers, members));
    }
  }

  lemma CardsTellNobody(p: Page, list: seq<Request>, inboxPub: string, drawn: Drawn)
    ensures var (p', us) := OnClaimed(p, list, inboxPub, drawn);
      && p'.claimed == p.claimed && Keyed(p') == Keyed(p) && p'.peers == p.peers && p'.announced == p.announced
      && forall u :: u in us ==> u.ClaimRoom?
  {}

  /** A confirmed page announces its key to the members it knows of. */
  lemma ConfirmedTells(p: Page, list: seq<Request>, inboxPub: string, drawn: Drawn, x: Id)
    requires p.rk.Some? && p.announced == {}
    ensures var (p', us) := OnClaimResult(p, true, list, inboxPub, drawn);
      && p'.claimed && Keyed(p') == Keyed(p) && p'.peers == p.peers
      && (x in p'.announced <==> x in p.roomPeers)
      && Count(us, KxFor(x)) == (if x in p.roomPeers then 1 else 0)
      && (KxTo(x, p.rk.value.key) in us <==> x in p.roomPeers)
  {
    var p0 := p.(creating := false, claimed := true);
    AnnouncesEach(p0, p.roomPeers);
    ConfirmedCounts(p, list, inboxPub, drawn, x);
    var (p2, u2) := AnnounceAll(p0, p.roomPeers);
    var (p3, u3) := OnClaimed(p2, list, inboxPub, drawn);
    CardsTellNobody(p2, list, inboxPub, drawn);
    assert forall u :: u in u2 + u3 <==> u in u2 || u in u3;
  }

  /** A page as it opens, once greeted: with a key stored before it claims with that, and
      without one it creates an unknown room or applies to a known one. */
  lemma OpenedIsGreeted(name: string, me: string, saved: Option<RoomKey>, id: Id, members: seq<Id>, known: bool,
                        list: seq<Request>, drawn: Drawn, vault: Vault)
    ensures var (p, us) := B.OnServer(Opened(name, me, saved), Welcome(id, members, known, list), drawn, vault);
      && !p.claimed && p.announced == p.peers == {} && (forall i :: i in p.roomPeers <==> i in members)
      && us == [if saved.Some? then ClaimRoom(false, saved.value.inbox)
                else if known then AskToJoin(name, me) else ClaimRoom(true, drawn.inbox)]
      && p.rk == if saved.Some? then saved else if known then None else Some(RoomKey(drawn.key, drawn.inbox))
  {
    AddPeersHas([], members);
  }

  /** A page that holds a key comes back after losing its connection: whatever the room's
      state, its claim is accepted, and it announces its key once to each member it is told
      of and to nobody else. */
  lemma ReconnectReclaims(p: Page, id: Id, members: seq<Id>, known: bool, held: Option<Room>, at: int,
                          list: seq<Request>, d1: Drawn, d2: Drawn, vault: Vault, x: Id)
    requires p.rk.Some?
    ensures var (p1, u1) := B.OnServer(OnClose(p), Welcome(id, members, known, list), d1, vault);
      && u1 == [ClaimRoom(false, p.rk.value.inbox)] && !p1.claimed
      && var (r, ok) := S.Claim(held, at, false, p.rk.value.inbox);
         var (p2, u2) := B.OnServer(p1, J.AnswerMsg(r, ok, list), d2, vault);
         && ok && p2.claimed && Keyed(p2) == Keyed(p) && p2.peers == {}
         && (x in p2.announced <==> x in members)
         && Count(u2, KxFor(x)) == (if x in members then 1 else 0)
         && (KxTo(x, p.rk.value.key) in u2 <==> x in members)
  {
    var p1 := B.OnServer(OnClose(p), Welcome(id, members, known, list), d1, vault).0;
    AddPeersHas([], members);
    ConfirmedTells(p1, list, InboxPub(S.Claim(held, at, false, p.rk.value.inbox).0), d2, x);
  }

  /** The inbox key an approver hands over: its own, if that is the one the room registered. */
  function SharedInbox(p: Page): string
    requires p.rk.Some?
  {
    var mine := p.rk.value.inbox;
    if mine != "" && mine == p.roomInboxPub then mine else ""
  }

  /** Approval and its effect: the store records the verdict, the applicant comes to hold
      the approver's key, with the inbox key if it is good, and claims with it, nobody else does, and the request is gone once
      the applicant says so. */
  lemma ApprovalRoundTrip(p: Page, a: Page, other: Page, room: Room, id: Digest, now: int, later: int,
                          pub: string, wrap: string, drawn: Drawn, vault: Vault)
    requires p.rk.Some? && a.rk.None? && other.rk.None?
    requires IsPending(Some(room), id) && room.requests[id].id == id && room.requests[id].pub == a.me
    requires ValidVerdict(Approve(pub, wrap)) && other.me != pub && other.me != a.me
    ensures var (_, u, w) := ApproveRequest(p, room.requests[id], pub, wrap);
      && u == [ApproveJoin(id, pub, wrap)]
      && var e := J.Handle(Some(room), None, u[0], now);
      && e.held.Some? && id in e.held.value.requests
      && var q := e.held.value.requests[id];
      && e.todo == [J.Decided(q), J.Broadcast]
      && var m := JoinStatus(Success(q), "");
      && var (a1, us) := B.OnServer(a, m, drawn, vault[wrap := w]);
      && a1.rk == Some(RoomKey(p.rk.value.key, SharedInbox(p))) && |us| == 2 && us[0] == JoinDone(id) && us[1] == ClaimRoom(false, a1.rk.value.inbox)
      && B.OnServer(other, m, drawn, vault[wrap := w]) == (other, [])
      && J.Handle(e.held, Some(id), us[0], later).todo == [J.Finish(id)]
      && S.Done(e.held, id) == Some(room.(requests := room.requests - {id}))
  {
    var q := Judged(room.requests[id], Approve(pub, wrap), now);
    assert room.requests[id := q] - {id} == room.requests - {id};
  }
}
