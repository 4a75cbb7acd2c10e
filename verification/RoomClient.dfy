/** The room page itself: module variables that the handlers assign to, and a socket
    they write to. */
module RoomClient {
  import opened Wrappers
  import opened StoreSpec
  import opened Wire
  import opened Browser
  import B = Browser
  import opened Discovery

  /** A message has the effect of its kind on a steady page. */
  ghost predicate Follows(p: Page, m: Msg, r: Reply) {
    Steady(p) && Fitting(p, m) ==> Steady(r.0) && HasEffect(p, m, r.0, r.1)
  }

  lemma ServerFollows(p: Page, m: Msg, drawn: Drawn, vault: Vault)
    ensures Follows(p, m, B.OnServer(p, m, drawn, vault))
  {
    if Steady(p) && Fitting(p, m) { EffectOf(p, m, drawn, vault); }
  }

  class RoomPage {
    const name: string
    const me: string
    var rk: Option<RoomKey>
    var claimed: bool
    var creating: bool
    var roomInboxPub: string
    var inboxClaimed: bool
    var roomPeers: seq<Id>
    var announced: set<Id>
    var peers: set<Id>
    var cards: map<Digest, Request>
    /** What was written to the socket. */
    var sent: seq<Up>

    constructor (name: string, me: string, saved: Option<RoomKey>)
      ensures Val() == Opened(name, me, saved) && sent == []
    {
      this.name, this.me, rk := name, me, saved;
      claimed, creating, roomInboxPub, inboxClaimed := false, false, "", false;
      roomPeers, announced, peers, cards, sent := [], {}, {}, map[], [];
    }

    function Val(): Page
      reads this
    {
      Page(name, me, rk, claimed, creating, roomInboxPub, inboxClaimed, roomPeers, announced, peers, cards)
    }

    /** The new state and the messages written are those of r. */
    twostate predicate Became(r: Reply)
      reads this
    {
      Val() == r.0 && sent == old(sent) + r.1
    }

    method WsSend(m: Up)
      modifies `sent
      ensures sent == old(sent) + [m]
    {
      sent := sent + [m];
    }

    // ----- peers -----

    method Announce(id: Id)
      modifies this
      ensures Became(B.Announce(old(Val()), id))
      ensures rk.Some? && claimed ==> id in announced
      ensures sent == old(sent) + if id in announced && id !in old(announced) then [KxTo(id, rk.value.key)] else []
    {
      if rk.None? || !claimed || id in announced { return; }
      announced := announced + {id};
      WsSend(KxTo(id, rk.value.key));
    }

    method EnsurePeer(id: Id)
      modifies this
      ensures Became(B.EnsurePeer(old(Val()), id))
      ensures rk.Some? ==> id in peers
      ensures sent == old(sent) + if id in peers && id !in old(peers) then [SignalTo(id, Box(rk.value.key))] else []
    {
      if id !in peers && rk.Some? {
        peers := peers + {id};
        WsSend(SignalTo(id, Box(rk.value.key)));
      }
    }

    method OnKx(from: Id, keyId: Key)
      modifies this
      ensures Became(B.OnKx(old(Val()), from, keyId))
    {
      if rk.None? || keyId != rk.value.key { return; }
      Announce(from);
      EnsurePeer(from);
    }

    /** Only what opens with our key makes its sender a peer. */
    method OnSealed(from: Id, box: Box)
      modifies this
      ensures Became(B.OnSealed(old(Val()), from, box))
    {
      if rk.None? || box.key != rk.value.key { return; }
      EnsurePeer(from);
    }

    method AnnounceAll(ids: seq<Id>)
      modifies this
      ensures Became(B.AnnounceAll(old(Val()), ids))
    {
      var i := 0;
      assert ids[..0] == [];
      while i < |ids|
        invariant 0 <= i <= |ids| && Became(B.AnnounceAll(old(Val()), ids[..i]))
      {
        assert ids[..i + 1][..i] == ids[..i];
        Announce(ids[i]);
        i := i + 1;
      }
      assert ids[..i] == ids;
    }

    method AddRoomPeers(ids: seq<Id>)
      modifies `roomPeers
      ensures roomPeers == AddPeers(old(roomPeers), ids)
    {
      var i := 0;
      while i < |ids|
        invariant 0 <= i <= |ids| && roomPeers == AddPeers(old(roomPeers), ids[..i])
      {
        assert ids[..i + 1][..i] == ids[..i];
        roomPeers := AddPeer(roomPeers, ids[i]);
        i := i + 1;
      }
      assert ids[..i] == ids;
    }

    // ----- the room key -----

    method Claim(create: bool)
      requires rk.Some?
      modifies this
      ensures Became(B.Claim(old(Val()), create))
    {
      creating := create;
      WsSend(ClaimRoom(create, rk.value.inbox));
    }

    method CreateRoom(drawn: Drawn)
      modifies this
      ensures Became(B.CreateRoom(old(Val()), drawn))
    {
      rk := Some(RoomKey(drawn.key, drawn.inbox));
      Claim(true);
    }

    method RequestJoin()
      modifies `sent
      ensures Became(B.RequestJoin(old(Val())))
    {
      WsSend(AskToJoin(name, me));
    }

    method SetInbox(inbox: string)
      requires rk.Some?
      modifies `rk, `cards
      ensures Val() == B.SetInbox(old(Val()), inbox)
    {
      rk := Some(rk.value.(inbox := inbox));
      cards := map[];
    }

    method RenderRequests(list: seq<Request>)
      modifies `cards
      ensures Val() == B.RenderRequests(old(Val()), list)
    {
      var shown := if rk.Some? && claimed then list else [];
      cards := map id | id in cards && id in Ids(shown) :: cards[id];
      ghost var kept := cards;
      var i := 0;
      while i < |shown|
        invariant 0 <= i <= |shown| && cards == AddCards(kept, shown[..i])
      {
        assert shown[..i + 1][..i] == shown[..i];
        var q := shown[i];
        if q.id !in cards { cards := cards[q.id := q]; }
        i := i + 1;
      }
      assert shown[..i] == shown;
    }

    method ShowRequests(list: seq<Request>, inboxPub: string)
      modifies `roomInboxPub, `cards
      ensures Val() == B.ShowRequests(old(Val()), list, inboxPub)
    {
      if inboxPub != "" { roomInboxPub := inboxPub; }
      RenderRequests(list);
    }

    /** A room without an inbox key gets ours, once. */
    method RegisterInbox(drawn: Drawn)
      modifies this
      ensures Became(B.RegisterInbox(old(Val()), drawn))
    {
      inboxClaimed := true;
      if rk.None? { return; }
      if rk.value.inbox == "" { SetInbox(drawn.inbox); }
      Claim(false);
    }

    method OnClaimed(list: seq<Request>, inboxPub: string, drawn: Drawn)
      modifies this
      ensures Became(B.OnClaimed(old(Val()), list, inboxPub, drawn))
    {
      roomInboxPub := inboxPub;
      if roomInboxPub == "" && !inboxClaimed {
        RegisterInbox(drawn);
      } else {
        RenderRequests(list);
      }
    }

    method OnClaimResult(ok: bool, list: seq<Request>, inboxPub: string, drawn: Drawn)
      modifies this
      ensures Became(B.OnClaimResult(old(Val()), ok, list, inboxPub, drawn))
      ensures !ok ==> rk.None? && sent == old(sent) + [AskToJoin(name, me)]
      ensures ok && old(rk).Some? ==>
        claimed && Keyed(Val()) == Keyed(old(Val())) && forall i :: i in roomPeers ==> i in announced
    {
      creating := false;
      if !ok {
        rk := None;
        RequestJoin();
        return;
      }
      claimed := true;
      if rk.Some? { AnnouncesEach(Val(), roomPeers); }
      AnnounceAll(roomPeers);
      OnClaimed(list, inboxPub, drawn);
    }

    method OnJoinStatus(status: Result<Request>, vault: Vault)
      modifies this
      ensures Became(B.OnJoinStatus(old(Val()), status, vault))
      ensures (rk == old(rk) && sent == old(sent))
           || (old(rk).None? && rk.Some? && status.Success? && status.value.status == Approved
               && rk == Unwrap(vault, me, status.value.approverPub, status.value.wrap)
               && sent == old(sent) + [JoinDone(status.value.id), ClaimRoom(false, rk.value.inbox)])
    {
      if rk.Some? || status.Failure? || status.value.status != Approved { return; }
      var q := status.value;
      var secret := Unwrap(vault, me, q.approverPub, q.wrap);
      if secret.None? { return; }
      rk := secret;
      WsSend(JoinDone(q.id));
      Claim(false);
    }

    /** The approve button of a card: seals our key for the applicant, under a key pair
        made for the occasion. */
    method ApproveRequest(q: Request, pub: string, wrap: string) returns (sealed: Wrapped)
      requires rk.Some?
      modifies `sent
      ensures var (p, u, w) := B.ApproveRequest(old(Val()), q, pub, wrap); Became((p, u)) && sealed == w
    {
      sealed := Wrapped(pub, q.pub, RoomKey(rk.value.key, if InboxOk(Val()) then rk.value.inbox else ""));
      WsSend(ApproveJoin(q.id, pub, wrap));
    }

    method AdoptInbox(inbox: string)
      requires rk.Some?
      modifies this
      ensures Became(B.AdoptInbox(old(Val()), inbox))
    {
      if inbox != "" && inbox == roomInboxPub && !InboxOk(Val()) {
        SetInbox(inbox);
        Claim(false);
      }
    }

    // ----- the connection -----

    method OnWelcome(members: seq<Id>, known: bool, drawn: Drawn)
      modifies this
      ensures Became(B.OnWelcome(old(Val()), members, known, drawn))
    {
      AddRoomPeers(members);
      if rk.Some? {
        Claim(false);
      } else if !known {
        CreateRoom(drawn);
      } else {
        RequestJoin();
      }
    }

    method OnPeerLeft(id: Id)
      modifies `roomPeers, `announced, `peers
      ensures Val() == B.OnPeerLeft(old(Val()), id)
      ensures id !in roomPeers && id !in announced && id !in peers
      ensures forall i :: i != id ==> && (i in roomPeers <==> i in old(roomPeers))
                                      && (i in announced <==> i in old(announced)) && (i in peers <==> i in old(peers))
    {
      DropPeerHas(roomPeers, id);
      roomPeers := DropPeer(roomPeers, id);
      announced := announced - {id};
      peers := peers - {id};
    }

    method OnServer(m: Msg, drawn: Drawn, vault: Vault)
      modifies this
      ensures Became(B.OnServer(old(Val()), m, drawn, vault))
      ensures Follows(old(Val()), m, (Val(), sent[|old(sent)|..]))
    {
      ServerFollows(Val(), m, drawn, vault);
      ghost var r := B.OnServer(Val(), m, drawn, vault);
      match m {
        case Welcome(_, members, known, _) => OnWelcome(members, known, drawn);
        case PeerJoined(id) =>
          roomPeers := AddPeer(roomPeers, id);
          Announce(id);
        case PeerLeft(id) => OnPeerLeft(id);
        case Kx(from, keyId) => OnKx(from, keyId);
        case Signal(from, box) => OnSealed(from, box);
        case Relay(from, box) => OnSealed(from, box);
        case ClaimResult(ok, list, inboxPub) => OnClaimResult(ok, list, inboxPub, drawn);
        case JoinStatus(status, _) => OnJoinStatus(status, vault);
        case JoinRequests(list, inboxPub) =>
          if rk.Some? { ShowRequests(list, inboxPub); }
        case JoinPost(_, _) =>
        case JoinPostError(_, _) =>
      }
      assert Became(r);
      assert sent[|old(sent)|..] == r.1;
    }

    method OnClose()
      modifies this
      ensures Val() == B.OnClose(old(Val())) && sent == old(sent)
      ensures roomPeers == [] && announced == peers == {} && !claimed
      ensures rk == old(rk) && cards == old(cards)
    {
      peers, roomPeers, announced, claimed := {}, [], {}, false;
    }
  }
}
