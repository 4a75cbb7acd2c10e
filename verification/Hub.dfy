/** The hub: two indexes of the open connections, one by room and one across rooms,
    updated in place under one lock. */
module Hub {
  import opened Wrappers
  import opened StoreSpec
  import opened Wire
  import opened HubSpec
  import HubViews
  import S = HubSpec

  class Client {
    const id: Id
    const room: string
    var queue: seq<Msg>
    var kicked: bool
    var reqID: Option<Digest>

    constructor (id: Id, room: string)
      ensures this.id == id && this.room == room && Val() == NewLine(room)
    {
      this.id, this.room, queue, kicked, reqID := id, room, [], false, None;
    }

    function Val(): Line
      reads this
    {
      Line(room, queue, kicked, reqID)
    }

    method Enqueue(m: Msg)
      modifies `queue, `kicked
      ensures Val() == S.Enqueue(old(Val()), m)
    {
      if |queue| < SEND_QUEUE { queue := queue + [m]; } else { kicked := true; }
    }
  }

  type Index = map<string, map<Id, Client>>

  /** The two indexes agree: each connection is filed once, under its own room and id,
      and every room listed has between 1 and cap members. */
  ghost predicate Agree(rooms: Index, peers: map<Id, Client>, cap: nat) {
    && (forall i :: IsFiled(rooms, peers, i))
    && (forall r :: RoomIsFiled(rooms, peers, cap, r))
  }

  ghost predicate IsFiled(rooms: Index, peers: map<Id, Client>, i: Id) {
    i in peers ==> peers[i].id == i && peers[i].room in rooms && i in rooms[peers[i].room]
  }

  ghost predicate RoomIsFiled(rooms: Index, peers: map<Id, Client>, cap: nat, r: string) {
    r in rooms ==> 1 <= |rooms[r].Keys| <= cap && RoomIs(rooms[r], r, peers)
  }

  ghost predicate RoomIs(room: map<Id, Client>, r: string, peers: map<Id, Client>) {
    forall i :: i in room ==> i in peers && peers[i] == room[i] && room[i].room == r
  }

  function RoomOf(rooms: Index, r: string): map<Id, Client> {
    if r in rooms then rooms[r] else map[]
  }

  lemma RoomAdded(rooms: Index, peers: map<Id, Client>, cap: nat, c: Client, room: map<Id, Client>, r: string)
    requires RoomIsFiled(rooms, peers, cap, r) && c.id !in peers
    requires r == c.room ==> room == RoomOf(rooms, r) && |room.Keys| < cap
    ensures RoomIsFiled(rooms[c.room := room[c.id := c]], peers[c.id := c], cap, r)
  {
    if r == c.room {
      assert room[c.id := c].Keys == room.Keys + {c.id} && c.id !in room;
    }
  }

  lemma AgreeAdded(rooms: Index, peers: map<Id, Client>, cap: nat, c: Client, room: map<Id, Client>)
    requires Agree(rooms, peers, cap) && c.id !in peers
    requires room == RoomOf(rooms, c.room) && |room.Keys| < cap
    ensures Agree(rooms[c.room := room[c.id := c]], peers[c.id := c], cap)
  {
    var rooms', peers' := rooms[c.room := room[c.id := c]], peers[c.id := c];
    forall i ensures IsFiled(rooms', peers', i) { assert IsFiled(rooms, peers, i); }
    forall r ensures RoomIsFiled(rooms', peers', cap, r) {
      assert RoomIsFiled(rooms, peers, cap, r);
      RoomAdded(rooms, peers, cap, c, room, r);
    }
  }

  lemma AgreeRemoved(rooms: Index, peers: map<Id, Client>, cap: nat, c: Client, room: map<Id, Client>)
    requires Agree(rooms, peers, cap) && c.id in peers && peers[c.id] == c
    requires c.room in rooms && room == rooms[c.room] - {c.id}
    ensures Agree(if room == map[] then rooms - {c.room} else rooms[c.room := room], peers - {c.id}, cap)
  {
    var rooms' := if room == map[] then rooms - {c.room} else rooms[c.room := room];
    var peers' := peers - {c.id};
    forall i ensures IsFiled(rooms', peers', i) { assert IsFiled(rooms, peers, i); }
    assert IsFiled(rooms, peers, c.id) && RoomIsFiled(rooms, peers, cap, c.room);
    assert room.Keys == rooms[c.room].Keys - {c.id};
    forall r ensures RoomIsFiled(rooms', peers', cap, r) { assert RoomIsFiled(rooms, peers, cap, r); }
  }

  /** Files a connection in both indexes. */
  method Filed(rooms: Index, peers: map<Id, Client>, cap: nat, c: Client)
    returns (rooms': Index, peers': map<Id, Client>)
    requires Agree(rooms, peers, cap) && c.id !in peers && |RoomOf(rooms, c.room).Keys| < cap
    ensures Agree(rooms', peers', cap) && peers' == peers[c.id := c]
  {
    var room := RoomOf(rooms, c.room);
    AgreeAdded(rooms, peers, cap, c, room);
    rooms' := rooms[c.room := room[c.id := c]];
    peers' := peers[c.id := c];
  }

  /** Takes a connection out of both indexes, and an emptied room with it. */
  method Unfiled(rooms: Index, peers: map<Id, Client>, cap: nat, c: Client)
    returns (rooms': Index, peers': map<Id, Client>)
    requires Agree(rooms, peers, cap) && c.id in peers && peers[c.id] == c
    ensures Agree(rooms', peers', cap) && peers' == peers - {c.id}
  {
    assert IsFiled(rooms, peers, c.id);
    var room := rooms[c.room] - {c.id};
    AgreeRemoved(rooms, peers, cap, c, room);
    rooms' := if room == map[] then rooms - {c.room} else rooms[c.room := room];
    peers' := peers - {c.id};
  }

  class Hub {
    const maxPeers: nat
    var rooms: Index
    var peers: map<Id, Client>

    constructor (maxPeers: int)
      ensures Valid() && View() == map[]
      ensures this.maxPeers == if maxPeers <= 0 then DEFAULT_MAX_PEERS else maxPeers
    {
      this.maxPeers := if maxPeers <= 0 then DEFAULT_MAX_PEERS else maxPeers;
      rooms, peers := map[], map[];
    }

    ghost predicate Valid()
      reads this
    {
      maxPeers > 0 && Agree(rooms, peers, maxPeers)
    }

    ghost function View(): Lines
      reads this, peers.Values
    {
      map i | i in peers :: peers[i].Val()
    }

    lemma RoomIsMembers(r: string)
      requires Valid()
      ensures Members(View(), r) == RoomOf(rooms, r).Keys
    {
      forall i | i in Members(View(), r) ensures i in RoomOf(rooms, r) { assert IsFiled(rooms, peers, i); }
      assert RoomIsFiled(rooms, peers, maxPeers, r);
    }

    /** The rooms listed are those of the open connections, each with between 1 and
        maxPeers members, and each connection is found in its own. */
    lemma IndexesAgree()
      requires Valid()
      ensures rooms.Keys == set i | i in View() :: View()[i].room
      ensures forall r :: r in rooms ==> rooms[r].Keys == Members(View(), r) && 1 <= |rooms[r].Keys| <= maxPeers
    {
      forall r | r in rooms
        ensures rooms[r].Keys == Members(View(), r) && 1 <= |rooms[r].Keys| <= maxPeers
        ensures exists i :: i in View() && View()[i].room == r
      {
        RoomIsMembers(r);
        assert RoomIsFiled(rooms, peers, maxPeers, r);
        var i :| i in rooms[r].Keys;
        assert i in Members(View(), r);
      }
      forall i | i in View() ensures View()[i].room in rooms { assert IsFiled(rooms, peers, i); }
    }

    lemma EachNamed()
      requires Valid()
      ensures Named()
    {
      forall i | i in peers ensures peers[i].id == i { assert IsFiled(rooms, peers, i); }
    }

    lemma LineIs(i: Id, before: Lines, l: Line)
      requires i in peers && peers.Keys == before.Keys + {i} && peers[i].Val() == l
      requires forall j :: j in peers && j != i ==> peers[j].Val() == before[j]
      ensures View() == before[i := l]
    {}

    lemma LineGone(i: Id, before: Lines)
      requires peers.Keys == before.Keys - {i} && forall j :: j in peers ==> peers[j].Val() == before[j]
      ensures View() == before - {i}
    {}

    ghost predicate Named()
      reads this
    {
      forall i :: i in peers ==> peers[i].id == i
    }

    method EnqueueOn(i: Id, m: Msg)
      requires Named() && i in peers
      modifies peers[i]
      ensures View() == old(View())[i := S.Enqueue(old(View())[i], m)]
    {
      ghost var before := View();
      peers[i].Enqueue(m);
      LineIs(i, before, S.Enqueue(before[i], m));
    }

    /** Enqueues m on each of these connections. */
    method SendEach(ids: set<Id>, m: Msg)
      requires Named() && ids <= peers.Keys
      modifies peers.Values
      ensures View() == Send(old(View()), ids, m)
    {
      ghost var before, done := View(), {};
      var rest := ids;
      NobodyTold(before, m);
      while rest != {}
        invariant rest + done == ids && rest !! done && View() == Send(before, done, m)
        decreases rest
      {
        var i :| i in rest;
        SentToOneMore(before, done, i, m);
        EnqueueOn(i, m);
        Moved(ids, rest, done, i);
        rest, done := rest - {i}, done + {i};
      }
      assert rest + done == done;
    }

    /** Puts a new connection in its room and tells the members; a full room refuses it.
        The id is fresh. */
    method Join(c: Client) returns (members: seq<Id>, ok: bool)
      requires Valid() && c.id !in peers && c !in peers.Values && c.Val() == NewLine(c.room)
      modifies this, peers.Values
      ensures Valid() && ok == HasSpace(old(View()), maxPeers, c.room)
      ensures !ok ==> View() == old(View()) && peers == old(peers)
      ensures ok ==> View() == S.Join(old(View()), c.id, c.room) && peers == old(peers)[c.id := c]
      ensures ok ==> HubViews.Elems(members) == Members(old(View()), c.room)
    {
      RoomIsMembers(c.room);
      var others := RoomOf(rooms, c.room).Keys;
      if |others| >= maxPeers { return [], false; }
      members := ListOf(others);
      Admit(c, others);
      ok := true;
    }

    method Admit(c: Client, others: set<Id>)
      requires Valid() && c.id !in peers && c !in peers.Values && c.Val() == NewLine(c.room)
      requires others == RoomOf(rooms, c.room).Keys && |others| < maxPeers
      modifies this, peers.Values
      ensures Valid() && peers == old(peers)[c.id := c]
      ensures View() == Send(old(View()), others, PeerJoined(c.id))[c.id := NewLine(c.room)]
    {
      EachNamed();
      RoomIsMembers(c.room);
      SendEach(others, PeerJoined(c.id));
      Add(c);
    }

    method Add(c: Client)
      requires Valid() && c.id !in peers && |RoomOf(rooms, c.room).Keys| < maxPeers
      modifies this
      ensures Valid() && peers == old(peers)[c.id := c]
      ensures View() == old(View())[c.id := c.Val()]
    {
      ghost var before := View();
      rooms, peers := Filed(rooms, peers, maxPeers, c);
      LineIs(c.id, before, c.Val());
    }

    method Leave(c: Client)
      requires Valid() && c.id in peers && peers[c.id] == c
      modifies this, peers.Values
      ensures Valid() && peers == old(peers) - {c.id}
      ensures View() == S.Leave(old(View()), c.id)
    {
      ghost var before := View();
      rooms, peers := Unfiled(rooms, peers, maxPeers, c);
      LineGone(c.id, before);
      EachNamed();
      RoomIsMembers(c.room);
      SendEach(RoomOf(rooms, c.room).Keys, PeerLeft(c.id));
    }

    /** One copy to each intended member of the sender's room, or the member is dropped. */
    method Forward(from: Client, to: Id, m: Msg)
      requires Valid() && from.id in peers && peers[from.id] == from
      modifies peers.Values
      ensures Valid() && View() == S.Forward(old(View()), from.id, to, m)
    {
      EachNamed();
      RoomIsMembers(from.room);
      var room := RoomOf(rooms, from.room);
      ghost var before := View();
      if to != "" {
        if to in room && to != from.id {
          OneTarget(before, from.id, to);
          SendEach({to}, m);
        } else {
          NoTarget(before, from.id, to);
          NobodyTold(before, m);
        }
        return;
      }
      AllTargets(before, from.id);
      SendEach(room.Keys - {from.id}, m);
    }

    method ToRoom(room: string, m: Msg)
      requires Valid()
      modifies peers.Values
      ensures Valid() && View() == Send(old(View()), Members(old(View()), room), m)
    {
      EachNamed();
      RoomIsMembers(room);
      SendEach(RoomOf(rooms, room).Keys, m);
    }

    /** Only connections that submitted the request are told. */
    method ToApplicant(room: string, q: Digest, m: Msg)
      requires Valid()
      modifies peers.Values
      ensures Valid() && View() == Send(old(View()), Applicants(old(View()), room, q), m)
    {
      EachNamed();
      RoomIsMembers(room);
      var members := RoomOf(rooms, room);
      assert RoomIsFiled(rooms, peers, maxPeers, room);
      var ids := set i | i in members && members[i].reqID == Some(q);
      assert ids == Applicants(View(), room, q);
      SendEach(ids, m);
    }

    method Connected(id: Id) returns (yes: bool)
      requires Valid()
      ensures yes <==> id in View()
    {
      yes := id in peers;
    }

    method RoomCount() returns (n: nat)
      requires Valid()
      ensures n == |set i | i in View() :: View()[i].room|
    {
      IndexesAgree();
      n := |rooms.Keys|;
    }
  }

  lemma NobodyTold(lines: Lines, m: Msg)
    ensures Send(lines, {}, m) == lines
  {}

  lemma SentToOneMore(lines: Lines, ids: set<Id>, i: Id, m: Msg)
    requires i in lines && i !in ids
    ensures Send(lines, ids, m)[i := S.Enqueue(Send(lines, ids, m)[i], m)] == Send(lines, ids + {i}, m)
  {}

  lemma Moved(all: set<Id>, rest: set<Id>, done: set<Id>, i: Id)
    requires rest + done == all && rest !! done && i in rest
    ensures (rest - {i}) + (done + {i}) == all && (rest - {i}) !! (done + {i})
  {}

  lemma OneTarget(lines: Lines, from: Id, to: Id)
    requires from in lines && to != "" && to != from && to in Members(lines, lines[from].room)
    ensures Targets(lines, from, to) == {to}
  {}

  lemma NoTarget(lines: Lines, from: Id, to: Id)
    requires from in lines && to != "" && (to == from || to !in Members(lines, lines[from].room))
    ensures Targets(lines, from, to) == {}
  {}

  lemma AllTargets(lines: Lines, from: Id)
    requires from in lines
    ensures Targets(lines, from, "") == Members(lines, lines[from].room) - {from}
  {}

  /** Lists a set, in some order. */
  method ListOf(ids: set<Id>) returns (s: seq<Id>)
    ensures HubViews.Elems(s) == ids && |s| == |ids|
  {
    s := [];
    var rest := ids;
    while rest != {}
      invariant rest <= ids && HubViews.Elems(s) == ids - rest && |s| == |ids - rest|
      decreases rest
    {
      var i :| i in rest;
      assert ids - (rest - {i}) == (ids - rest) + {i};
      s, rest := s + [i], rest - {i};
    }
  }
}
