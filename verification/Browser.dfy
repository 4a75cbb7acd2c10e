/** The protocol half of a room page: what each message from the server makes it
    remember, and what it sends in return. */
module Browser {
  import opened Wrappers
  import opened StoreSpec
  import opened Wire

  /** The room key, with the public half of the room's inbox key ("" for none). */
  datatype RoomKey = RoomKey(key: Key, inbox: string)

  /** A room key sealed with the key that the owners of two key pairs share. */
  datatype Wrapped = Wrapped(a: string, b: string, secret: RoomKey)

  /** The ciphertexts made so far. */
  type Vault = map<string, Wrapped>

  /** ECDH gives both sides the same key, and AES-GCM opens with that key alone. */
  function Unwrap(vault: Vault, mine: string, theirs: string, wrap: string): Option<RoomKey> {
    if wrap in vault && ((vault[wrap].a == mine && vault[wrap].b == theirs) ||
                         (vault[wrap].a == theirs && vault[wrap].b == mine))
    then Some(vault[wrap].secret) else None
  }

  /** Values a handler may draw: a new room key and a new inbox key. */
  datatype Drawn = Drawn(key: Key, inbox: string)

  datatype Page = Page(
    name: string, me: string,
    rk: Option<RoomKey>, claimed: bool, creating: bool,
    roomInboxPub: string, inboxClaimed: bool,
    roomPeers: seq<Id>, announced: set<Id>, peers: set<Id>,
    cards: map<Digest, Request>)

  /** A page as it opens, with the key it stored before, if any. */
  function Opened(name: string, me: string, saved: Option<RoomKey>): Page {
    Page(name, me, saved, false, false, "", false, [], {}, {}, map[])
  }

  type Reply = (Page, seq<Up>)

  function Keyed(p: Page): Option<Key> {
    if p.rk.Some? then Some(p.rk.value.key) else None
  }

  // ----- peers -----

  function Announce(p: Page, id: Id): Reply {
    if p.rk.None? || !p.claimed || id in p.announced then (p, [])
    else (p.(announced := p.announced + {id}), [KxTo(id, p.rk.value.key)])
  }

  function AnnounceAll(p: Page, ids: seq<Id>): Reply {
    if ids == [] then (p, [])
    else
      var (p1, u1) := AnnounceAll(p, ids[..|ids| - 1]);
      var (p2, u2) := Announce(p1, ids[|ids| - 1]);
      (p2, u1 + u2)
  }

  /** A new peer starts negotiating: its first signal is sealed with the room key. */
  function EnsurePeer(p: Page, id: Id): Reply {
    if id !in p.peers && p.rk.Some?
    then (p.(peers := p.peers + {id}), [SignalTo(id, Box(p.rk.value.key))]) else (p, [])
  }

  function OnKx(p: Page, from: Id, keyId: Key): Reply {
    if p.rk.None? || keyId != p.rk.value.key then (p, [])
    else
      var (p1, u1) := Announce(p, from);
      var (p2, u2) := EnsurePeer(p1, from);
      (p2, u1 + u2)
  }

  /** A signal or relayed message: whoever sealed it holds our key. */
  function OnSealed(p: Page, from: Id, box: Box): Reply {
    if p.rk.None? || box.key != p.rk.value.key then (p, []) else EnsurePeer(p, from)
  }

  function AddPeer(ids: seq<Id>, id: Id): seq<Id> {
    if id in ids then ids else ids + [id]
  }

  function AddPeers(ids: seq<Id>, more: seq<Id>): seq<Id> {
    if more == [] then ids else AddPeer(AddPeers(ids, more[..|more| - 1]), more[|more| - 1])
  }

  function DropPeer(ids: seq<Id>, id: Id): seq<Id> {
    if ids == [] then []
    else DropPeer(ids[..|ids| - 1], id) + (if ids[|ids| - 1] == id then [] else [ids[|ids| - 1]])
  }

  // ----- the room key -----

  function Claim(p: Page, create: bool): Reply
    requires p.rk.Some?
  {
    (p.(creating := create), [ClaimRoom(create, p.rk.value.inbox)])
  }

  /** The key is kept before the claim is confirmed. */
  function CreateRoom(p: Page, drawn: Drawn): Reply {
    Claim(p.(rk := Some(RoomKey(drawn.key, drawn.inbox))), true)
  }

  function RequestJoin(p: Page): Reply {
    (p, [AskToJoin(p.name, p.me)])
  }

  function SetInbox(p: Page, inbox: string): Page
    requires p.rk.Some?
  {
    p.(rk := Some(p.rk.value.(inbox := inbox)), cards := map[])
  }

  function Ids(list: seq<Request>): set<Digest> { set q | q in list :: q.id }

  function AddCards(cards: map<Digest, Request>, list: seq<Request>): map<Digest, Request> {
    if list == [] then cards
    else
      var q := list[|list| - 1];
      var c := AddCards(cards, list[..|list| - 1]);
      if q.id in c then c else c[q.id := q]
  }

  /** Drops the cards of requests no longer listed and adds cards for new ones; a
      page that is not a confirmed member shows none. */
  function RenderRequests(p: Page, list: seq<Request>): Page {
    var shown := if p.rk.Some? && p.claimed then list else [];
    p.(cards := AddCards(map id | id in p.cards && id in Ids(shown) :: p.cards[id], shown))
  }

  function ShowRequests(p: Page, list: seq<Request>, inboxPub: string): Page {
    RenderRequests(if inboxPub == "" then p else p.(roomInboxPub := inboxPub), list)
  }

  /** A room without an inbox key gets ours, once; the next result draws the cards. */
  function RegisterInbox(p: Page, drawn: Drawn): Reply {
    var p1 := p.(inboxClaimed := true);
    if p1.rk.None? then (p1, [])
    else Claim(if p1.rk.value.inbox == "" then SetInbox(p1, drawn.inbox) else p1, false)
  }

  function OnClaimed(p: Page, list: seq<Request>, inboxPub: string, drawn: Drawn): Reply {
    var p1 := p.(roomInboxPub := inboxPub);
    if inboxPub == "" && !p1.inboxClaimed then RegisterInbox(p1, drawn) else (RenderRequests(p1, list), [])
  }

  function OnClaimResult(p: Page, ok: bool, list: seq<Request>, inboxPub: string, drawn: Drawn): Reply {
    if !ok then RequestJoin(p.(creating := false, rk := None))
    else
      var (p1, u1) := AnnounceAll(p.(creating := false, claimed := true), p.roomPeers);
      var (p2, u2) := OnClaimed(p1, list, inboxPub, drawn);
      (p2, u1 + u2)
  }

  function OnJoinStatus(p: Page, status: Result<Request>, vault: Vault): Reply {
    if p.rk.Some? || status.Failure? || status.value.status != Approved then (p, [])
    else
      var q := status.value;
      match Unwrap(vault, p.me, q.approverPub, q.wrap)
      case None => (p, [])
      case Some(secret) =>
        var (p1, u) := Claim(p.(rk := Some(secret)), false);
        (p1, [JoinDone(q.id)] + u)
  }

  predicate InboxOk(p: Page) {
    p.rk.Some? && p.rk.value.inbox != "" && p.rk.value.inbox == p.roomInboxPub
  }

  /** Approving seals the room key for the applicant under a new key pair. */
  function ApproveRequest(p: Page, q: Request, pub: string, wrap: string): (Page, seq<Up>, Wrapped)
    requires p.rk.Some?
  {
    (p, [ApproveJoin(q.id, pub, wrap)],
     Wrapped(pub, q.pub, RoomKey(p.rk.value.key, if InboxOk(p) then p.rk.value.inbox else "")))
  }

  /** A hello from a peer brought the room's inbox key. */
  function AdoptInbox(p: Page, inbox: string): Reply
    requires p.rk.Some?
  {
    if inbox != "" && inbox == p.roomInboxPub && !InboxOk(p) then Claim(SetInbox(p, inbox), false) else (p, [])
  }

  // ----- the connection -----

  function OnWelcome(p: Page, members: seq<Id>, known: bool, drawn: Drawn): Reply {
    var p1 := p.(roomPeers := AddPeers(p.roomPeers, members));
    if p.rk.Some? then Claim(p1, false) else if !known then CreateRoom(p1, drawn) else RequestJoin(p1)
  }

  function OnPeerLeft(p: Page, id: Id): Page {
    p.(roomPeers := DropPeer(p.roomPeers, id), announced := p.announced - {id}, peers := p.peers - {id})
  }

  function OnServer(p: Page, m: Msg, drawn: Drawn, vault: Vault): Reply {
    match m
    case Welcome(_, members, known, _) => OnWelcome(p, members, known, drawn)
    case PeerJoined(id) => Announce(p.(roomPeers := AddPeer(p.roomPeers, id)), id)
    case PeerLeft(id) => (OnPeerLeft(p, id), [])
    case Kx(from, keyId) => OnKx(p, from, keyId)
    case Signal(from, box) => OnSealed(p, from, box)
    case Relay(from, box) => OnSealed(p, from, box)
    case ClaimResult(ok, list, inboxPub) => OnClaimResult(p, ok, list, inboxPub, drawn)
    case JoinStatus(status, _) => OnJoinStatus(p, status, vault)
    case JoinRequests(list, inboxPub) =>
      if p.rk.None? then (p, [])
      else (ShowRequests(p, list, inboxPub), [])
    case JoinPost(_, _) => (p, [])
    case JoinPostError(_, _) => (p, [])
  }

  /** The connection is lost; the key and the cards stay. */
  function OnClose(p: Page): Page {
    p.(peers := {}, roomPeers := [], announced := {}, claimed := false)
  }

  // ----- what the handlers promise -----

  lemma {:induction false} AddPeersHas(ids: seq<Id>, more: seq<Id>)
    ensures forall i :: i in AddPeers(ids, more) <==> i in ids || i in more
  {
    if more != [] {
      AddPeersHas(ids, more[..|more| - 1]);
      SplitLast(more);
    }
  }

  lemma {:induction false} DropPeerHas(ids: seq<Id>, id: Id)
    ensures forall i :: i in DropPeer(ids, id) <==> i in ids && i != id
  {
    if ids != [] {
      DropPeerHas(ids[..|ids| - 1], id);
      SplitLast(ids);
    }
  }

  /** A member announcing itself ends having announced to all of them, changes nothing
      else, and sends exactly the announcements that were missing, each once. */
  lemma {:induction false} AnnouncesEach(p: Page, ids: seq<Id>)
    requires p.rk.Some? && p.claimed
    ensures var (p', u) := AnnounceAll(p, ids);
      && p' == p.(announced := p'.announced)
      && (forall i :: i in p'.announced <==> i in p.announced || i in ids)
      && (forall m :: m in u <==> m.KxTo? && m.keyId == p.rk.value.key && m.to in ids && m.to !in p.announced)
      && (forall j, k :: 0 <= j < k < |u| ==> u[j] != u[k])
  {
    if ids != [] {
      AnnouncesEach(p, ids[..|ids| - 1]);
      SplitLast(ids);
    }
  }

  lemma {:induction false} AddCardsFrom(cards: map<Digest, Request>, list: seq<Request>)
    ensures AddCards(cards, list).Keys == cards.Keys + Ids(list)
    ensures forall id :: id in cards ==> AddCards(cards, list)[id] == cards[id]
    ensures forall id :: id in AddCards(cards, list) && id !in cards ==>
      AddCards(cards, list)[id] in list && AddCards(cards, list)[id].id == id
  {
    if list != [] {
      AddCardsFrom(cards, list[..|list| - 1]);
      SplitLast(list);
    }
  }

  /** A confirmed member's cards are exactly the requests last listed, and a card already
      shown is kept as it was. */
  lemma CardsFollowTheList(p: Page, list: seq<Request>)
    ensures var p' := RenderRequests(p, list);
      if p.rk.Some? && p.claimed then
        && p'.cards.Keys == Ids(list)
        && (forall id :: id in p'.cards ==>
              if id in p.cards then p'.cards[id] == p.cards[id] else p'.cards[id] in list && p'.cards[id].id == id)
      else p'.cards == map[]
  {
    var shown := if p.rk.Some? && p.claimed then list else [];
    var kept := map id | id in p.cards && id in Ids(shown) :: p.cards[id];
    AddCardsFrom(kept, shown);
    if p.rk.None? || !p.claimed { assert kept == map[]; }
  }
}
