/** Discovery: once nothing is under way between two connected members holding the same
    key, each has a peer for the other, whatever happened before. */
module Discovery {
  import opened Wrappers
  import opened StoreSpec
  import S = StoreSpec
  import opened Wire
  import opened HubSpec
  import H = HubSpec
  import HubViews
  import opened Browser
  import B = Browser
  import opened JoinSpec
  import J = JoinSpec
  import opened RoomSystem
  import R = RoomSystem
  import opened ClaimCount

  // ----- one connection -----

  /** Messages that neither answer a claim nor come from other connections. */
  predicate Office(m: Msg) {
    m.JoinStatus? || m.JoinRequests? || m.JoinPost? || m.JoinPostError?
  }

  predicate OfficeAct(a: Action) {
    (a.Post? ==> Office(a.msg) || a.msg.ClaimResult?) && (a.ToAll? ==> Office(a.msg))
  }

  function About(m: Msg): set<Id> {
    match m
    case Welcome(_, members, _, _) => HubViews.Elems(members)
    case PeerJoined(x) => {x}
    case PeerLeft(x) => {x}
    case Kx(x, _) => {x}
    case Signal(x, _) => {x}
    case Relay(x, _) => {x}
    case _ => {}
  }

  /** Pages write to connections they were told of, one at a time. */
  predicate Addressed(ids: set<Id>, u: Up) {
    !u.RelayTo? && (u.KxTo? || u.SignalTo? ==> u.to in ids)
  }

  /** Whatever page is behind it: what the server does, and whom messages are about. */
  ghost predicate ChannelOk(ids: set<Id>, l: Loop, d: seq<Msg>) {
    && (forall a :: a in l.todo ==> OfficeAct(a))
    && (!l.welcomed ==> l.todo == [] && Count(d, ClaimMsg) == 0)
    && Count(d, WelcomeMsg) <= (if l.welcomed then 1 else 0)
    && (forall m :: m in d ==> About(m) <= ids)
    && HubViews.Elems(l.snapshot) <= ids
    && (forall u :: u in l.up ==> Addressed(ids, u))
    && InOrder(d)
  }

  /** The welcome comes before any answer to a claim. */
  ghost predicate InOrder(d: seq<Msg>) {
    forall j, k :: 0 <= j < k < |d| && d[k].Welcome? ==> !d[j].ClaimResult?
  }

  /** Claims for an existing room, which succeed, and their answers. */
  ghost predicate Sure(l: Loop, d: seq<Msg>) {
    && (forall u :: u in l.up && u.ClaimRoom? ==> !u.create)
    && (forall a :: a in l.todo ==> (a.ClaimReply? ==> a.ok) && (a.Post? && a.msg.ClaimResult? ==> a.msg.ok))
    && (forall m :: m in d && m.ClaimResult? ==> m.ok)
  }

  predicate Greeted(l: Loop, d: seq<Msg>) {
    l.welcomed && Count(d, WelcomeMsg) == 0
  }

  /** The page on the connection: a confirmed page keeps its key as long as it is
      connected, and has announced itself to everyone it knows of. */
  ghost predicate MemberOk(ids: set<Id>, p: Page, l: Loop, d: seq<Msg>) {
    && (p.claimed ==> p.rk.Some? && !p.creating && Greeted(l, d))
    && (p.rk.None? ==> Claims(l, d) == 0)
    && (p.creating ==> Claims(l, d) <= 1 && (Claims(l, d) == 1 ==> Greeted(l, d)))
    && (!p.creating ==> Sure(l, d))
    && (p.announced != {} ==> p.claimed)
    && (p.claimed ==> forall x :: x in p.roomPeers ==> x in p.announced)
    && HubViews.Elems(p.roomPeers) + p.announced + p.peers <= ids
  }

  // ----- two connections -----

  predicate KxFlies(a: Id, b: Id, k: Key, upA: seq<Up>, downB: seq<Msg>) {
    KxTo(b, k) in upA || Kx(a, k) in downB
  }

  predicate SignalFlies(a: Id, b: Id, k: Key, upA: seq<Up>, downB: seq<Msg>) {
    SignalTo(b, Box(k)) in upA || Signal(a, Box(k)) in downB
  }

  predicate Sealed(m: Msg, from: Id) {
    (m.Signal? || m.Relay?) && m.from == from
  }

  /** One end of a connection: its page, what the page has sent and what it will get. */
  datatype End = End(page: Page, up: seq<Up>, down: seq<Msg>)

  /** A has been told of B, or is about to be. */
  ghost predicate Knows(b: Id, e: End, waiting: bool) {
    && PeerLeft(b) !in e.down
    && (waiting || b in e.page.roomPeers || exists m :: m in e.down && (m.Welcome? || m.PeerJoined?) && b in About(m))
  }

  predicate HasKey(p: Page, k: Key) {
    p.claimed && Keyed(p) == Some(k)
  }

  /** An announcement under way names the key its sender still holds. */
  ghost predicate KxTrue(a: Id, b: Id, x: End, y: End) {
    && (forall u :: u in x.up && u.KxTo? && u.to == b ==> HasKey(x.page, u.keyId))
    && (forall m :: m in y.down && m.Kx? && m.from == a ==> HasKey(x.page, m.keyId))
  }

  /** Whoever sends a sealed message has a peer for its addressee. */
  ghost predicate SealedTrue(a: Id, b: Id, x: End, y: End) {
    && (forall u :: u in x.up && u.SignalTo? && u.to == b ==> b in x.page.peers)
    && (forall m :: m in y.down && Sealed(m, a) ==> b in x.page.peers)
  }

  /** Of two announcements, one has landed or will. */
  ghost predicate OneLands(a: Id, b: Id, x: End, y: End) {
    b in x.page.announced && a in y.page.announced && Keyed(x.page) == Keyed(y.page) && x.page.rk.Some? ==>
      var k := x.page.rk.value.key;
      || KxFlies(a, b, k, x.up, y.down) || a in y.page.peers
      || KxFlies(b, a, k, y.up, x.down) || b in x.page.peers
  }

  /** A peer on one side has one on the other, or the message that makes it. */
  ghost predicate Answered(a: Id, b: Id, x: End, y: End) {
    b in x.page.peers ==>
      || a in y.page.peers
      || (y.page.claimed && y.page.rk.Some? && SignalFlies(a, b, y.page.rk.value.key, x.up, y.down))
  }

  ghost predicate PairOk(a: Id, b: Id, x: End, y: End, waiting: bool) {
    && Knows(b, x, waiting)
    && KxTrue(a, b, x, y) && SealedTrue(a, b, x, y)
    && OneLands(a, b, x, y) && OneLands(b, a, y, x)
    && Answered(a, b, x, y)
  }

  // ----- how a pair changes -----

  /** A message arriving at one of them from elsewhere. */
  predicate Neutral(m: Msg, from: Id) {
    m != PeerLeft(from) && !(m.Kx? && m.from == from) && !Sealed(m, from)
  }

  lemma FirstHears(a: Id, b: Id, x: End, y: End, waiting: bool, m: Msg)
    requires PairOk(a, b, x, y, waiting) && m != PeerLeft(b)
    ensures PairOk(a, b, x.(down := x.down + [m]), y, waiting)
  {
    assert forall n :: n in x.down ==> n in x.down + [m];
  }

  lemma SecondHears(a: Id, b: Id, x: End, y: End, waiting: bool, m: Msg)
    requires PairOk(a, b, x, y, waiting) && Neutral(m, a)
    ensures PairOk(a, b, x, y.(down := y.down + [m]), waiting)
  {
    assert forall n :: n in y.down ==> n in y.down + [m];
    assert forall n :: n in y.down + [m] ==> n in y.down || n == m;
  }

  /** An announcement or a signal goes from what A has sent to what B will get. */
  lemma PassesToSecond(a: Id, b: Id, x: End, y: End, waiting: bool)
    requires PairOk(a, b, x, y, waiting) && x.up != [] && Forwarded(x.up[0]) && !x.up[0].RelayTo? && x.up[0].to == b
    ensures PairOk(a, b, x.(up := x.up[1..]), y.(down := y.down + [Passed(a, x.up[0])]), waiting)
  {
    var m := Passed(a, x.up[0]);
    assert forall u :: u in x.up ==> u == x.up[0] || u in x.up[1..];
    assert forall u :: u in x.up[1..] ==> u in x.up;
    assert forall n :: n in y.down + [m] <==> n in y.down || n == m;
  }

  lemma PassesFromSecond(a: Id, b: Id, x: End, y: End, waiting: bool)
    requires PairOk(b, a, y, x, waiting) && x.up != [] && Forwarded(x.up[0]) && !x.up[0].RelayTo? && x.up[0].to == b
    ensures PairOk(b, a, y.(down := y.down + [Passed(a, x.up[0])]), x.(up := x.up[1..]), waiting)
  {
    var m := Passed(a, x.up[0]);
    assert forall u :: u in x.up ==> u == x.up[0] || u in x.up[1..];
    assert forall u :: u in x.up[1..] ==> u in x.up;
    assert forall n :: n in y.down + [m] <==> n in y.down || n == m;
  }

  /** Anything else the server reads. */
  lemma FirstRead(a: Id, b: Id, x: End, y: End, waiting: bool)
    requires PairOk(a, b, x, y, waiting) && x.up != [] && !(Forwarded(x.up[0]) && x.up[0].to == b)
    ensures PairOk(a, b, x.(up := x.up[1..]), y, waiting)
  {
    assert forall u :: u in x.up ==> u == x.up[0] || u in x.up[1..];
    assert forall u :: u in x.up[1..] ==> u in x.up;
  }

  lemma SecondRead(a: Id, b: Id, x: End, y: End, waiting: bool)
    requires PairOk(a, b, x, y, waiting) && y.up != [] && !(Forwarded(y.up[0]) && y.up[0].to == a)
    ensures PairOk(a, b, x, y.(up := y.up[1..]), waiting)
  {
    assert forall u :: u in y.up ==> u == y.up[0] || u in y.up[1..];
    assert forall u :: u in y.up[1..] ==> u in y.up;
  }

  // ----- what handling a message does to a pair -----

  /** What MemberOk says of the page alone. */
  predicate Steady(p: Page) {
    && (p.claimed ==> p.rk.Some? && !p.creating)
    && (p.announced != {} ==> p.claimed)
    && (p.claimed ==> forall x :: x in p.roomPeers ==> x in p.announced)
  }

  /** The messages that can reach a page in this state. */
  predicate Fitting(p: Page, m: Msg) {
    && (m.Welcome? ==> !p.claimed)
    && (m.ClaimResult? ==> if m.ok then p.rk.Some? else !p.claimed)
  }

  /** A page forgets nobody who has not left, keeps its key once confirmed, and says so to
      whoever it newly announces itself to or makes a peer. */
  ghost predicate HasEffect(p: Page, m: Msg, p': Page, us: seq<Up>) {
    && (p.claimed ==> p'.claimed && Keyed(p') == Keyed(p))
    && (forall x :: x in p.roomPeers && m != PeerLeft(x) ==> x in p'.roomPeers)
    && (forall x :: x in p.announced && m != PeerLeft(x) ==> x in p'.announced)
    && (forall x :: x in p.peers && m != PeerLeft(x) ==> x in p'.peers)
    && (m.Welcome? || m.PeerJoined? ==> forall x :: x in About(m) ==> x in p'.roomPeers)
    && (forall x :: x in p'.announced && x !in p.announced ==> p'.rk.Some? && KxTo(x, p'.rk.value.key) in us)
    && (forall u :: u in us && u.KxTo? ==> HasKey(p', u.keyId))
    && (forall u :: u in us && u.SignalTo? ==> u.to in p'.peers)
    && (forall x :: x in p'.peers && x !in p.peers ==> MadePeer(p, m, us, x))
    && (m.Kx? && Keyed(p) == Some(m.keyId) ==> m.from in p'.peers)
    && (m.Signal? && Keyed(p) == Some(m.box.key) ==> m.from in p'.peers)
  }

  predicate MadePeer(p: Page, m: Msg, us: seq<Up>, x: Id) {
    p.rk.Some? && SignalTo(x, Box(p.rk.value.key)) in us && (m == Kx(x, p.rk.value.key) || Sealed(m, x))
  }

  /** Ids a page holds or writes to are ones it held or was just told of. */
  ghost predicate Tells(p: Page, m: Msg, p': Page, us: seq<Up>) {
    var ids := HubViews.Elems(p.roomPeers) + p.announced + p.peers + About(m);
    && HubViews.Elems(p'.roomPeers) + p'.announced + p'.peers <= ids
    && forall u :: u in us ==> Addressed(ids, u)
  }

  lemma ConfirmedEffect(p: Page, m: Msg, drawn: Drawn)
    requires Steady(p) && m.ClaimResult? && m.ok && p.rk.Some?
    ensures var (p', us) := B.OnClaimResult(p, m.ok, m.requests, m.inboxPub, drawn);
      HasEffect(p, m, p', us) && Tells(p, m, p', us) && Steady(p')
  {
    var p0 := p.(creating := false, claimed := true);
    AnnouncesEach(p0, p.roomPeers);
    var (p1, u1) := AnnounceAll(p0, p.roomPeers);
    var (p2, u2) := OnClaimed(p1, m.requests, m.inboxPub, drawn);
    assert p2.roomPeers == p.roomPeers && p2.announced == p1.announced && p2.peers == p.peers;
    assert p2.claimed && Keyed(p2) == Keyed(p) && !p2.creating;
    assert forall u :: u in u2 ==> u.ClaimRoom?;
    assert forall u :: u in u1 + u2 <==> u in u1 || u in u2;
  }

  lemma WelcomeEffect(p: Page, m: Msg, drawn: Drawn)
    requires Steady(p) && m.Welcome? && !p.claimed
    ensures var (p', us) := B.OnWelcome(p, m.members, m.known, drawn);
      HasEffect(p, m, p', us) && Tells(p, m, p', us) && Steady(p')
  {
    AddPeersHas(p.roomPeers, m.members);
  }

  lemma JoinedEffect(p: Page, m: Msg)
    requires Steady(p) && m.PeerJoined?
    ensures var (p', us) := Announce(p.(roomPeers := AddPeer(p.roomPeers, m.id)), m.id);
      HasEffect(p, m, p', us) && Tells(p, m, p', us) && Steady(p')
  {}

  lemma LeftEffect(p: Page, m: Msg)
    requires Steady(p) && m.PeerLeft?
    ensures HasEffect(p, m, OnPeerLeft(p, m.id), []) && Tells(p, m, OnPeerLeft(p, m.id), []) && Steady(OnPeerLeft(p, m.id))
  {
    DropPeerHas(p.roomPeers, m.id);
  }

  lemma SealedEffect(p: Page, m: Msg)
    requires Steady(p) && (m.Signal? || m.Relay?)
    ensures var (p', us) := OnSealed(p, m.from, m.box);
      HasEffect(p, m, p', us) && Tells(p, m, p', us) && Steady(p')
  {}

  /** What answering an announcement writes. */
  lemma KxReply(p: Page, from: Id, k: Key) returns (kx: bool, sig: bool)
    requires Steady(p) && Keyed(p) == Some(k)
    ensures kx == (p.claimed && from !in p.announced) && sig == (from !in p.peers)
    ensures var (p', us) := OnKx(p, from, k);
      && p' == p.(announced := if kx then p.announced + {from} else p.announced, peers := p.peers + {from})
      && forall u :: u in us <==> (kx && u == KxTo(from, k)) || (sig && u == SignalTo(from, Box(k)))
  {
    kx, sig := p.claimed && from !in p.announced, from !in p.peers;
    var (p1, u1) := Announce(p, from);
    var (p2, u2) := EnsurePeer(p1, from);
    assert forall u :: u in u1 + u2 <==> u in u1 || u in u2;
    assert !sig ==> p.peers + {from} == p.peers;
  }

  lemma KxEffect(p: Page, m: Msg)
    requires Steady(p) && m.Kx?
    ensures var (p', us) := OnKx(p, m.from, m.keyId);
      HasEffect(p, m, p', us) && Tells(p, m, p', us) && Steady(p')
  {
    if Keyed(p) == Some(m.keyId) { var kx, sig := KxReply(p, m.from, m.keyId); }
  }

  lemma OfficeEffect(p: Page, m: Msg, drawn: Drawn, vault: Vault)
    requires Steady(p) && (Office(m) || (m.ClaimResult? && !m.ok && !p.claimed))
    ensures var (p', us) := B.OnServer(p, m, drawn, vault);
      HasEffect(p, m, p', us) && Tells(p, m, p', us) && Steady(p')
  {}

  lemma EffectOf(p: Page, m: Msg, drawn: Drawn, vault: Vault)
    requires Steady(p) && Fitting(p, m)
    ensures var (p', us) := B.OnServer(p, m, drawn, vault);
      HasEffect(p, m, p', us) && Tells(p, m, p', us) && Steady(p')
  {
    match m
    case Welcome(_, _, _, _) => WelcomeEffect(p, m, drawn);
    case ClaimResult(ok, _, _) =>
      if ok { ConfirmedEffect(p, m, drawn); } else { OfficeEffect(p, m, drawn, vault); }
    case PeerJoined(_) => JoinedEffect(p, m);
    case PeerLeft(_) => LeftEffect(p, m);
    case Kx(_, _) => KxEffect(p, m);
    case Signal(_, _) => SealedEffect(p, m);
    case Relay(_, _) => SealedEffect(p, m);
    case _ => OfficeEffect(p, m, drawn, vault);
  }

  function Handles(x: End, p': Page, us: seq<Up>): End
    requires x.down != []
  {
    End(p', x.up + us, x.down[1..])
  }

  lemma Handling(x: End, p': Page, us: seq<Up>)
    requires x.down != []
    ensures forall n :: n in x.down <==> n == x.down[0] || n in x.down[1..]
    ensures forall u :: u in Handles(x, p', us).up <==> u in x.up || u in us
  {}

  lemma OneStillLands(a: Id, b: Id, x: End, y: End, waiting: bool, p': Page, us: seq<Up>)
    requires PairOk(a, b, x, y, waiting) && Steady(x.page)
    requires x.down != [] && HasEffect(x.page, x.down[0], p', us)
    ensures OneLands(a, b, Handles(x, p', us), y) && OneLands(b, a, y, Handles(x, p', us))
  {
    Handling(x, p', us);
  }

  lemma FirstHandles(a: Id, b: Id, x: End, y: End, waiting: bool, other: bool, p': Page, us: seq<Up>)
    requires PairOk(a, b, x, y, waiting) && PairOk(b, a, y, x, other) && Steady(x.page)
    requires x.down != [] && HasEffect(x.page, x.down[0], p', us)
    ensures PairOk(a, b, Handles(x, p', us), y, waiting)
  {
    Handling(x, p', us);
    OneStillLands(a, b, x, y, waiting, p', us);
    assert Answered(a, b, Handles(x, p', us), y);
  }

  lemma SecondHandles(a: Id, b: Id, x: End, y: End, waiting: bool, other: bool, p': Page, us: seq<Up>)
    requires PairOk(a, b, x, y, waiting) && PairOk(b, a, y, x, other) && Steady(x.page)
    requires x.down != [] && HasEffect(x.page, x.down[0], p', us)
    ensures PairOk(b, a, y, Handles(x, p', us), other)
  {
    Handling(x, p', us);
    OneStillLands(a, b, x, y, waiting, p', us);
  }

  /** Steps of a page that concern neither members nor peers. */
  predicate Aside(p: Page, p': Page, us: seq<Up>) {
    && p'.roomPeers == p.roomPeers && p'.announced == p.announced && p'.peers == p.peers
    && p'.claimed == p.claimed && Keyed(p') == Keyed(p)
    && forall u :: u in us ==> !Forwarded(u)
  }

  lemma FirstAside(a: Id, b: Id, x: End, y: End, waiting: bool, p': Page, us: seq<Up>)
    requires PairOk(a, b, x, y, waiting) && Aside(x.page, p', us)
    ensures PairOk(a, b, End(p', x.up + us, x.down), y, waiting)
  {
    assert forall u :: u in x.up + us <==> u in x.up || u in us;
  }

  lemma SecondAside(a: Id, b: Id, x: End, y: End, waiting: bool, p': Page, us: seq<Up>)
    requires PairOk(a, b, x, y, waiting) && Aside(y.page, p', us)
    ensures PairOk(a, b, x, End(p', y.up + us, y.down), waiting)
  {
    assert forall u :: u in y.up + us <==> u in y.up || u in us;
  }

  /** Nothing about b, nor for it, is under way at this end. */
  predicate ClearOf(b: Id, e: End) {
    && (forall m :: m in e.down ==> b !in About(m))
    && (forall u :: u in e.up && (u.KxTo? || u.SignalTo?) ==> u.to != b)
  }

  /** The point: with nothing under way between them, two members with one key are each
      other's peers. */
  lemma NothingUnderWay(a: Id, b: Id, x: End, y: End, wx: bool, wy: bool)
    requires PairOk(a, b, x, y, wx) && PairOk(b, a, y, x, wy) && !wx && !wy
    requires Steady(x.page) && Steady(y.page)
    requires x.page.claimed && y.page.claimed && Keyed(x.page) == Keyed(y.page)
    requires ClearOf(b, x) && ClearOf(a, y)
    ensures b in x.page.peers && a in y.page.peers
  {
    assert b in x.page.announced && a in y.page.announced;
  }

  // ----- how one connection changes -----

  /** Both invariants of a connection with an open page. */
  ghost predicate ConnOk(ids: set<Id>, p: Page, l: Loop, d: seq<Msg>) {
    ChannelOk(ids, l, d) && MemberOk(ids, p, l, d)
  }

  lemma InOrderMore(d: seq<Msg>, m: Msg)
    requires InOrder(d) && (m.Welcome? ==> forall n :: n in d ==> !n.ClaimResult?)
    ensures InOrder(d + [m])
  {}

  lemma InOrderLess(w: seq<Msg>, q: seq<Msg>)
    requires InOrder(w + q)
    ensures InOrder(w)
  {
    assert forall j :: 0 <= j < |w| ==> (w + q)[j] == w[j];
  }

  lemma InOrderTail(d: seq<Msg>)
    requires InOrder(d) && d != []
    ensures InOrder(d[1..]) && (d[0].ClaimResult? ==> forall m :: m in d[1..] ==> !m.Welcome?)
  {
    assert forall j :: 0 <= j < |d[1..]| ==> d[1..][j] == d[j + 1];
  }

  lemma LoopHears(ids: set<Id>, l: Loop, d: seq<Msg>, m: Msg)
    requires ChannelOk(ids, l, d) && Quiet(m) && About(m) <= ids
    ensures ChannelOk(ids, l, d + [m])
    ensures Count(d + [m], ClaimMsg) == Count(d, ClaimMsg) && Count(d + [m], WelcomeMsg) == Count(d, WelcomeMsg)
  {
    InOrderMore(d, m);
    CountConcat(d, [m], ClaimMsg);
    CountConcat(d, [m], WelcomeMsg);
    CountOne(m, ClaimMsg);
    CountOne(m, WelcomeMsg);
  }

  lemma PageHears(ids: set<Id>, p: Page, l: Loop, d: seq<Msg>, m: Msg)
    requires ConnOk(ids, p, l, d) && Quiet(m) && About(m) <= ids
    ensures ConnOk(ids, p, l, d + [m])
  {
    LoopHears(ids, l, d, m);
  }

  lemma LoopCut(ids: set<Id>, l: Loop, w: seq<Msg>, q: seq<Msg>)
    requires ChannelOk(ids, l, w + q)
    ensures ChannelOk(ids, l, w)
  {
    CountConcat(w, q, ClaimMsg);
    CountConcat(w, q, WelcomeMsg);
    InOrderLess(w, q);
    assert forall m :: m in w ==> m in w + q;
  }

  lemma PageCut(ids: set<Id>, p: Page, l: Loop, w: seq<Msg>, q: seq<Msg>)
    requires ConnOk(ids, p, l, w + q)
    ensures ConnOk(ids, p, l, w)
  {
    LoopCut(ids, l, w, q);
    CountConcat(w, q, ClaimMsg);
    CountConcat(w, q, WelcomeMsg);
    assert forall m :: m in w ==> m in w + q;
  }

  lemma LoopGreeted(ids: set<Id>, l: Loop, d: seq<Msg>, m: Msg)
    requires ChannelOk(ids, l, d) && !l.welcomed && m.Welcome? && About(m) <= ids
    ensures ChannelOk(ids, l.(welcomed := true), d + [m])
    ensures Count(d + [m], ClaimMsg) == Count(d, ClaimMsg)
  {
    forall n | n in d ensures !n.ClaimResult? { CountZero(d, ClaimMsg, n); }
    InOrderMore(d, m);
    CountConcat(d, [m], ClaimMsg);
    CountConcat(d, [m], WelcomeMsg);
    CountOne(m, ClaimMsg);
    CountOne(m, WelcomeMsg);
  }

  lemma LoopReads(ids: set<Id>, l: Loop, d: seq<Msg>)
    requires ChannelOk(ids, l, d) && l.up != []
    ensures ChannelOk(ids, l.(up := l.up[1..]), d)
    ensures Claims(l.(up := l.up[1..]), d) + (if l.up[0].ClaimRoom? then 1 else 0) == Claims(l, d)
  {
    CountTail(l.up, ClaimUp);
    assert forall u :: u in l.up[1..] ==> u in l.up;
  }

  lemma PageReads(ids: set<Id>, p: Page, l: Loop, d: seq<Msg>)
    requires ConnOk(ids, p, l, d) && l.up != []
    ensures ConnOk(ids, p, l.(up := l.up[1..]), d)
  {
    LoopReads(ids, l, d);
    assert forall u :: u in l.up[1..] ==> u in l.up;
  }

  /** The answer to a claim just read. */
  lemma PageReadsClaim(ids: set<Id>, p: Page, l: Loop, d: seq<Msg>, ok: bool, todo: seq<Action>)
    requires ConnOk(ids, p, l, d) && l.up != [] && l.up[0].ClaimRoom? && l.todo == [] && l.welcomed
    requires (!l.up[0].create ==> ok) && Count(todo, ClaimAct) == 1
    requires forall a :: a in todo ==> a == ClaimReply(ok) || a == Broadcast
    ensures ConnOk(ids, p, l.(up := l.up[1..], todo := todo), d)
  {
    PageReads(ids, p, l, d);
    LoopReads(ids, l, d);
  }

  lemma LoopFinishes(ids: set<Id>, l: Loop, d: seq<Msg>)
    requires ChannelOk(ids, l, d) && l.todo != []
    ensures ChannelOk(ids, l.(todo := l.todo[1..]), d)
    ensures Claims(l.(todo := l.todo[1..]), d) + (if ClaimAct(l.todo[0]) then 1 else 0) == Claims(l, d)
  {
    CountTail(l.todo, ClaimAct);
    assert forall a :: a in l.todo[1..] ==> a in l.todo;
  }

  lemma PageFinishes(ids: set<Id>, p: Page, l: Loop, d: seq<Msg>)
    requires ConnOk(ids, p, l, d) && l.todo != []
    ensures ConnOk(ids, p, l.(todo := l.todo[1..]), d)
  {
    LoopFinishes(ids, l, d);
    assert forall a :: a in l.todo[1..] ==> a in l.todo;
  }

  /** What a connection gets once it is welcomed. */
  lemma LoopGets(ids: set<Id>, l: Loop, d: seq<Msg>, m: Msg)
    requires ChannelOk(ids, l, d) && l.welcomed && !m.Welcome? && About(m) <= ids
    ensures ChannelOk(ids, l, d + [m])
    ensures Count(d + [m], WelcomeMsg) == Count(d, WelcomeMsg)
    ensures Count(d + [m], ClaimMsg) == Count(d, ClaimMsg) + if ClaimMsg(m) then 1 else 0
  {
    InOrderMore(d, m);
    CountConcat(d, [m], ClaimMsg);
    CountConcat(d, [m], WelcomeMsg);
    CountOne(m, ClaimMsg);
    CountOne(m, WelcomeMsg);
  }

  lemma LoopPosts(ids: set<Id>, l: Loop, d: seq<Msg>, m: Msg)
    requires ChannelOk(ids, l, d) && l.todo != [] && l.todo[0] == Post(m)
    ensures ChannelOk(ids, l.(todo := l.todo[1..]), d + [m])
    ensures Claims(l.(todo := l.todo[1..]), d + [m]) == Claims(l, d)
    ensures Count(d + [m], WelcomeMsg) == Count(d, WelcomeMsg)
  {
    LoopFinishes(ids, l, d);
    assert OfficeAct(l.todo[0]);
    LoopGets(ids, l.(todo := l.todo[1..]), d, m);
  }

  lemma PagePosts(ids: set<Id>, p: Page, l: Loop, d: seq<Msg>, m: Msg)
    requires ConnOk(ids, p, l, d) && l.todo != [] && l.todo[0] == Post(m)
    ensures ConnOk(ids, p, l.(todo := l.todo[1..]), d + [m])
  {
    LoopPosts(ids, l, d, m);
    assert forall a :: a in l.todo[1..] ==> a in l.todo;
    assert l.todo[0] in l.todo;
  }

  lemma PageComposes(ids: set<Id>, p: Page, l: Loop, d: seq<Msg>, a: Action)
    requires l.todo != [] && ClaimAct(a) == ClaimAct(l.todo[0]) && OfficeAct(a)
    requires a.ClaimReply? ==> l.todo[0] == a
    requires a.Post? && a.msg.ClaimResult? ==> l.todo[0] == ClaimReply(a.msg.ok)
    ensures ChannelOk(ids, l, d) ==> ChannelOk(ids, l.(todo := [a] + l.todo[1..]), d)
    ensures ConnOk(ids, p, l, d) ==> ConnOk(ids, p, l.(todo := [a] + l.todo[1..]), d)
  {
    var rest := l.todo[1..];
    CountTail(l.todo, ClaimAct);
    CountConcat([a], rest, ClaimAct);
    CountOne(a, ClaimAct);
    assert forall b :: b in rest ==> b in l.todo;
    assert forall b :: b in [a] + rest <==> b == a || b in rest;
    assert l.todo[0] in l.todo;
  }

  // ----- a page handling a message -----

  lemma LoopWrites(ids: set<Id>, l: Loop, d: seq<Msg>, us: seq<Up>)
    requires ChannelOk(ids, l, d) && forall u :: u in us ==> Addressed(ids, u)
    ensures ChannelOk(ids, l.(up := l.up + us), d)
    ensures Claims(l.(up := l.up + us), d) == Claims(l, d) + Count(us, ClaimUp)
  {
    CountConcat(l.up, us, ClaimUp);
    assert forall u :: u in l.up + us <==> u in l.up || u in us;
  }

  lemma LoopReceives(ids: set<Id>, l: Loop, d: seq<Msg>)
    requires ChannelOk(ids, l, d) && d != []
    ensures ChannelOk(ids, l, d[1..])
    ensures Claims(l, d[1..]) + (if d[0].ClaimResult? then 1 else 0) == Claims(l, d)
    ensures Count(d[1..], WelcomeMsg) + (if d[0].Welcome? then 1 else 0) == Count(d, WelcomeMsg)
    ensures d[0].ClaimResult? ==> Greeted(l, d[1..])
  {
    CountTail(d, ClaimMsg);
    CountTail(d, WelcomeMsg);
    assert forall m :: m in d[1..] ==> m in d;
    InOrderTail(d);
    if d[0].ClaimResult? { CountNone(d[1..], WelcomeMsg); }
  }

  /** With no claim under way every answer to come is sure. */
  lemma NoClaimsSure(l: Loop, d: seq<Msg>)
    requires Claims(l, d) == 0
    ensures Sure(l, d)
  {
    forall u | u in l.up ensures !u.ClaimRoom? { CountZero(l.up, ClaimUp, u); }
    forall a | a in l.todo ensures !ClaimAct(a) { CountZero(l.todo, ClaimAct, a); }
    forall m | m in d ensures !m.ClaimResult? { CountZero(d, ClaimMsg, m); }
  }

  lemma SureReceives(l: Loop, d: seq<Msg>)
    requires Sure(l, d) && d != []
    ensures Sure(l, d[1..])
  {
    assert forall m :: m in d[1..] ==> m in d;
  }

  lemma SureWrites(l: Loop, d: seq<Msg>, us: seq<Up>)
    requires Sure(l, d) && forall u :: u in us && u.ClaimRoom? ==> !u.create
    ensures Sure(l.(up := l.up + us), d)
  {
    assert forall u :: u in l.up + us <==> u in l.up || u in us;
  }

  /** What a reply must be like for the page to remain good. */
  ghost predicate ReplyOk(ids: set<Id>, p: Page, l: Loop, d: seq<Msg>, p': Page, us: seq<Up>) {
    && Steady(p') && HubViews.Elems(p'.roomPeers) + p'.announced + p'.peers <= ids
    && (p'.claimed ==> Greeted(l, d))
    && (p'.rk.None? ==> Claims(l, d) == 0 && Count(us, ClaimUp) == 0)
    && (p'.creating ==> Claims(l, d) + Count(us, ClaimUp) <= 1 && (Claims(l, d) + Count(us, ClaimUp) == 1 ==> Greeted(l, d)))
    && (!p'.creating ==> Sure(l, d) && forall u :: u in us && u.ClaimRoom? ==> !u.create)
  }

  lemma PageReplies(ids: set<Id>, p: Page, l: Loop, d: seq<Msg>, p': Page, us: seq<Up>)
    requires ChannelOk(ids, l, d) && ReplyOk(ids, p, l, d, p', us)
    requires forall u :: u in us ==> Addressed(ids, u)
    ensures ConnOk(ids, p', l.(up := l.up + us), d)
  {
    LoopWrites(ids, l, d, us);
    if !p'.creating { SureWrites(l, d, us); }
  }

  lemma WelcomeReply(ids: set<Id>, p: Page, l: Loop, d: seq<Msg>, drawn: Drawn)
    requires ConnOk(ids, p, l, d) && d != [] && d[0].Welcome?
    ensures Fitting(p, d[0])
    ensures var (p', us) := B.OnWelcome(p, d[0].members, d[0].known, drawn);
      Tells(p, d[0], p', us) && Steady(p') ==> ReplyOk(ids, p, l, d[1..], p', us)
  {
    var (p', us) := B.OnWelcome(p, d[0].members, d[0].known, drawn);
    LoopReceives(ids, l, d);
    CountOne(us[0], ClaimUp);
    assert d[0] in d;
    if Claims(l, d[1..]) == 0 { NoClaimsSure(l, d[1..]); } else { SureReceives(l, d); }
  }

  lemma ClaimReplyOk(ids: set<Id>, p: Page, l: Loop, d: seq<Msg>, drawn: Drawn)
    requires ConnOk(ids, p, l, d) && d != [] && d[0].ClaimResult?
    ensures Fitting(p, d[0])
    ensures var (p', us) := B.OnClaimResult(p, d[0].ok, d[0].requests, d[0].inboxPub, drawn);
      Tells(p, d[0], p', us) && Steady(p') ==> ReplyOk(ids, p, l, d[1..], p', us)
  {
    var (p', us) := B.OnClaimResult(p, d[0].ok, d[0].requests, d[0].inboxPub, drawn);
    LoopReceives(ids, l, d);
    assert d[0] in d;
    if p.creating { NoClaimsSure(l, d[1..]); } else { SureReceives(l, d); }
    if d[0].ok {
      ConfirmedClaims(p, d[0], drawn);
    } else {
      CountOne(us[0], ClaimUp);
    }
  }

  lemma ConfirmedClaims(p: Page, m: Msg, drawn: Drawn)
    requires m.ClaimResult? && m.ok && p.rk.Some?
    ensures var (p', us) := B.OnClaimResult(p, m.ok, m.requests, m.inboxPub, drawn);
      p'.rk.Some? && !p'.creating && forall u :: u in us && u.ClaimRoom? ==> !u.create
  {
    var p0 := p.(creating := false, claimed := true);
    AnnouncesEach(p0, p.roomPeers);
  }

  lemma StatusReply(ids: set<Id>, p: Page, l: Loop, d: seq<Msg>, vault: Vault)
    requires ConnOk(ids, p, l, d) && d != [] && d[0].JoinStatus?
    ensures var (p', us) := B.OnJoinStatus(p, d[0].status, vault);
      Tells(p, d[0], p', us) && Steady(p') ==> ReplyOk(ids, p, l, d[1..], p', us)
  {
    var (p', us) := B.OnJoinStatus(p, d[0].status, vault);
    LoopReceives(ids, l, d);
    if us != [] {
      NoClaimsSure(l, d[1..]);
    } else {
      if !p.creating { SureReceives(l, d); }
    }
  }

  lemma OtherKeeps(p: Page, m: Msg, drawn: Drawn, vault: Vault)
    requires Quiet(m) && !m.JoinStatus?
    ensures var (p', us) := B.OnServer(p, m, drawn, vault);
      && p'.rk == p.rk && p'.creating == p.creating && p'.claimed == p.claimed
      && forall u :: u in us ==> !u.ClaimRoom?
  {}

  lemma OtherReply(ids: set<Id>, p: Page, l: Loop, d: seq<Msg>, drawn: Drawn, vault: Vault)
    requires ConnOk(ids, p, l, d) && d != [] && Quiet(d[0]) && !d[0].JoinStatus?
    ensures var (p', us) := B.OnServer(p, d[0], drawn, vault);
      Tells(p, d[0], p', us) && Steady(p') ==> ReplyOk(ids, p, l, d[1..], p', us)
  {
    var (p', us) := B.OnServer(p, d[0], drawn, vault);
    LoopReceives(ids, l, d);
    OtherKeeps(p, d[0], drawn, vault);
    CountNone(us, ClaimUp);
    assert d[0] in d;
    if !p.creating { SureReceives(l, d); }
  }

  lemma Replied(ids: set<Id>, p: Page, l: Loop, d: seq<Msg>, drawn: Drawn, vault: Vault)
    requires ConnOk(ids, p, l, d) && d != []
    ensures Fitting(p, d[0])
    ensures var (p', us) := B.OnServer(p, d[0], drawn, vault);
      Tells(p, d[0], p', us) && Steady(p') ==> ReplyOk(ids, p, l, d[1..], p', us)
  {
    match d[0]
    case Welcome(_, _, _, _) => WelcomeReply(ids, p, l, d, drawn);
    case ClaimResult(_, _, _) => ClaimReplyOk(ids, p, l, d, drawn);
    case JoinStatus(_, _) => StatusReply(ids, p, l, d, vault);
    case _ => OtherReply(ids, p, l, d, drawn, vault);
  }

  /** Handling a message keeps the connection good. */
  lemma PageHandles(ids: set<Id>, p: Page, l: Loop, d: seq<Msg>, drawn: Drawn, vault: Vault)
    requires ConnOk(ids, p, l, d) && d != []
    ensures var (p', us) := B.OnServer(p, d[0], drawn, vault);
      HasEffect(p, d[0], p', us) && ConnOk(ids, p', l.(up := l.up + us), d[1..])
  {
    var (p', us) := B.OnServer(p, d[0], drawn, vault);
    Replied(ids, p, l, d, drawn, vault);
    EffectOf(p, d[0], drawn, vault);
    LoopReceives(ids, l, d);
    assert d[0] in d;
    PageReplies(ids, p, l, d[1..], p', us);
  }
}
