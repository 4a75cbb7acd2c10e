/** The server's store object: rooms and requests are records it updates in place, under
    one lock, and writes out whole after every change. */
module Store {
  import opened Clock
  import opened Wrappers
  import opened StoreSpec
  import S = StoreSpec
  import Codec

  class JoinRequest {
    const id: Digest
    ghost const owner: RoomEntry
    var name: string
    const pub: string
    var status: Status
    const created: int
    var updated: int
    var approverPub: string
    var wrap: string
    var messages: seq<JoinMessage>

    constructor (ghost owner: RoomEntry, name: string, pub: string, now: int)
      ensures Clone() == NewRequest(name, pub, now) && id == Sha256(pub) && this.owner == owner
    {
      this.owner := owner;
      this.id, this.name, this.pub := Sha256(pub), ShownName(name), pub;
      status, created, updated := Pending, now, now;
      approverPub, wrap, messages := "", "", [];
    }

    /** A copy that later changes do not reach. */
    function Clone(): Request
      reads this
    {
      Request(id, name, pub, status, created, updated, approverPub, wrap, messages)
    }
  }

  class RoomEntry {
    const key: Digest
    const created: int
    var lastActive: int
    var inboxPub: string
    var requests: map<Digest, JoinRequest>

    constructor (key: Digest, now: int, inboxPub: string)
      ensures Valid() && Val() == Room(now, now, inboxPub, map[]) && requests == map[] && this.key == key
    {
      this.key := key;
      created, lastActive, this.inboxPub, requests := now, now, inboxPub, map[];
    }

    /** Each request is filed under its own id and belongs to this room alone. */
    ghost predicate Valid()
      reads this
    {
      forall a :: a in requests ==> requests[a].id == a && requests[a].owner == this
    }

    function Val(): Room
      reads this, requests.Values
    {
      Room(created, lastActive, inboxPub, map id | id in requests :: requests[id].Clone())
    }

    lemma OneRequestChanged(id: Digest, before: Room)
      requires id in requests && before.requests.Keys == requests.Keys
      requires before.created == created && before.lastActive == lastActive && before.inboxPub == inboxPub
      requires forall k :: k in requests && k != id ==> requests[k].Clone() == before.requests[k]
      ensures Val() == before.(requests := before.requests[id := requests[id].Clone()])
    {
      assert Val().requests == before.requests[id := requests[id].Clone()];
    }

    method Touch(id: Digest, name: string, now: int)
      requires Valid() && id in requests
      modifies requests[id]
      ensures Valid()
      ensures Val() == old(Val()).(requests := old(Val()).requests[id := Touched(old(requests[id].Clone()), name, now)])
    {
      var q := requests[id];
      if q.status == Pending { q.name := ShownName(name); }
      q.updated := now;
      OneRequestChanged(id, old(Val()));
    }

    method CountPending(now: int) returns (pending: nat)
      requires Valid()
      ensures pending == |LiveIds(Val(), now)|
    {
      pending := 0;
      var rest := requests.Keys;
      while rest != {}
        invariant rest <= requests.Keys
        invariant pending == |set id | id in requests && id !in rest && LivePending(requests[id].Clone(), now)|
        decreases rest
      {
        var id :| id in rest;
        ghost var seen := set k | k in requests && k !in rest && LivePending(requests[k].Clone(), now);
        rest := rest - {id};
        if LivePending(requests[id].Clone(), now) {
          assert (set k | k in requests && k !in rest && LivePending(requests[k].Clone(), now)) == seen + {id};
          pending := pending + 1;
        } else {
          assert (set k | k in requests && k !in rest && LivePending(requests[k].Clone(), now)) == seen;
        }
      }
      assert LiveIds(Val(), now) == set id | id in requests && id !in rest && LivePending(requests[id].Clone(), now);
    }

    method AddRequest(now: int, name: string, pub: string) returns (q: JoinRequest)
      requires Valid()
      modifies this
      ensures Valid() && requests.Values <= old(requests.Values) + {q} && fresh(q)
      ensures q.Clone() == NewRequest(name, pub, now)
      ensures Val() == old(Val()).(requests := old(Val()).requests[Sha256(pub) := q.Clone()])
    {
      q := new JoinRequest(this, name, pub, now);
      requests := requests[Sha256(pub) := q];
      assert Val().requests == old(Val()).requests[Sha256(pub) := q.Clone()];
    }

    method Submit(now: int, name: string, pub: string) returns (res: Result<Request>)
      requires Valid() && Codec.ValidPub(pub)
      modifies this, requests.Values
      ensures Valid() && fresh(requests.Values - old(requests.Values))
      ensures (Some(Val()), res) == S.Submit(Some(old(Val())), now, name, pub)
    {
      var id := Sha256(pub);
      if id in requests && !Expired(requests[id].Clone(), now) {
        Touch(id, name, now);
        assert requests[id].Clone() == Val().requests[id];
        return Success(requests[id].Clone());
      }
      var pending := CountPending(now);
      if pending >= MAX_PENDING { return Failure(TooMany); }
      var q := AddRequest(now, name, pub);
      res := Success(q.Clone());
    }

    method AddMessage(now: int, id: Digest, msgId: string, data: string) returns (res: Result<JoinMessage>)
      requires Valid() && ValidMessage(msgId, data)
      modifies requests.Values
      ensures Valid()
      ensures (Some(Val()), res) == S.AddMessage(Some(old(Val())), now, id, msgId, data)
    {
      if id !in requests || requests[id].status != Pending { return Failure(NotFound); }
      var q := requests[id];
      if |q.messages| >= MAX_MSGS { return Failure(Full); }
      var m := JoinMessage(msgId, data, now);
      q.messages := q.messages + [m];
      q.updated := now;
      OneRequestChanged(id, old(Val()));
      res := Success(m);
    }

    method Decide(now: int, id: Digest, v: Verdict) returns (res: Result<Request>)
      requires Valid() && ValidVerdict(v)
      modifies requests.Values
      ensures Valid()
      ensures (Some(Val()), res) == S.Decide(Some(old(Val())), now, id, v)
    {
      if id !in requests || requests[id].status != Pending { return Failure(NotFound); }
      var q := requests[id];
      match v {
        case Approve(approverPub, wrap) => q.status, q.approverPub, q.wrap := Approved, approverPub, wrap;
        case Reject => q.status := Rejected;
      }
      q.updated := now;
      OneRequestChanged(id, old(Val()));
      res := Success(q.Clone());
    }

    method Done(id: Digest) returns (changed: bool)
      requires Valid()
      modifies this
      ensures Valid() && requests.Values <= old(requests.Values)
      ensures Some(Val()) == S.Done(Some(old(Val())), id) && (!changed ==> Val() == old(Val()))
    {
      if id !in requests || requests[id].status != Approved { return false; }
      requests := requests - {id};
      assert Val().requests == old(Val()).requests - {id};
      changed := true;
    }

    method DropExpired(now: int) returns (changed: bool)
      requires Valid()
      modifies this
      ensures Valid() && requests.Values <= old(requests.Values)
      ensures Val() == S.DropExpired(old(Val()), now) && (!changed ==> Val() == old(Val()))
    {
      changed := false;
      var rest := requests.Keys;
      while rest != {}
        invariant rest <= requests.Keys <= old(requests.Keys)
        invariant lastActive == old(lastActive) && inboxPub == old(inboxPub)
        invariant forall id :: id in requests ==> requests[id] == old(requests[id])
        invariant forall id :: id in requests && id !in rest ==> !Expired(requests[id].Clone(), now)
        invariant forall id :: id in old(requests) && id !in requests ==> Expired(old(requests[id].Clone()), now)
        invariant !changed ==> requests == old(requests)
        decreases rest
      {
        var id :| id in rest;
        rest := rest - {id};
        if Expired(requests[id].Clone(), now) {
          requests := requests - {id};
          changed := true;
        }
      }
      assert Val().requests == S.DropExpired(old(Val()), now).requests;
    }

    /** The pending requests, oldest first. */
    method PendingList(now: int) returns (out: seq<Request>)
      requires Valid()
      ensures IsPendingList(out, Some(Val()), now)
    {
      out := [];
      var rest := requests.Keys;
      while rest != {}
        invariant rest <= requests.Keys
        invariant ByAge(out) && OnceEach(out)
        invariant forall q :: q in out <==>
            exists id :: id in requests && id !in rest && LivePending(requests[id].Clone(), now) && requests[id].Clone() == q
        decreases rest
      {
        var id :| id in rest;
        rest := rest - {id};
        var q := requests[id].Clone();
        if LivePending(q, now) { out := InsertByAge(out, q); }
      }
      forall q | q in PendingSet(Some(Val()), now) ensures q in out {
        var id :| id in LiveIds(Val(), now) && Val().requests[id] == q;
        assert requests[id].Clone() == q;
      }
      forall q | q in out ensures q in PendingSet(Some(Val()), now) {
        var id :| id in requests && LivePending(requests[id].Clone(), now) && requests[id].Clone() == q;
        assert id in LiveIds(Val(), now) && Val().requests[id] == q;
      }
    }
  }

  method InsertByAge(qs: seq<Request>, q: Request) returns (out: seq<Request>)
    requires ByAge(qs) && OnceEach(qs) && forall x :: x in qs ==> x.id != q.id
    ensures ByAge(out) && OnceEach(out)
    ensures forall i, j :: 0 <= i < j < |out| ==> out[i].created <= out[j].created
    ensures forall x :: x in out <==> x in qs || x == q
  {
    var at := |qs|;
    while at > 0 && qs[at - 1].created > q.created
      invariant 0 <= at <= |qs|
      invariant forall j :: at <= j < |qs| ==> q.created <= qs[j].created
    {
      at := at - 1;
    }
    out := qs[..at] + [q] + qs[at..];
    Inserted(qs, q, at, out);
    InsertKeepsAge(qs, q, at, out);
  }

  lemma Inserted(qs: seq<Request>, q: Request, at: nat, out: seq<Request>)
    requires at <= |qs| && out == qs[..at] + [q] + qs[at..]
    ensures forall x :: x in out <==> x in qs || x == q
  {
    assert qs == qs[..at] + qs[at..];
  }

  lemma InsertKeepsAge(qs: seq<Request>, q: Request, at: nat, out: seq<Request>)
    requires at <= |qs| && out == qs[..at] + [q] + qs[at..]
    requires ByAge(qs) && OnceEach(qs) && forall x :: x in qs ==> x.id != q.id
    requires at > 0 ==> qs[at - 1].created <= q.created
    requires forall j :: at <= j < |qs| ==> q.created <= qs[j].created
    ensures ByAge(out) && OnceEach(out)
  {
    assert forall j :: 0 <= j < |qs| ==> qs[j].id != q.id;
    forall i, j | 0 <= i < j < |out| ensures out[i].created <= out[j].created && out[i].id != out[j].id {
      InsertedAt(qs, q, at, out, i);
      InsertedAt(qs, q, at, out, j);
    }
  }

  lemma InsertedAt(qs: seq<Request>, q: Request, at: nat, out: seq<Request>, i: nat)
    requires at <= |qs| && out == qs[..at] + [q] + qs[at..] && i < |out|
    ensures out[i] == if i < at then qs[i] else if i == at then q else qs[i - 1]
  {}

  // ----- the store -----

  type Rooms = map<Digest, Room>

  function Get(rooms: Rooms, k: Digest): Option<Room> {
    if k in rooms then Some(rooms[k]) else None
  }

  function Put(rooms: Rooms, k: Digest, r: Option<Room>): Rooms {
    match r
    case Some(room) => rooms[k := room]
    case None => rooms - {k}
  }

  /** One operation on the room filed under k; the other rooms stay as they are. */
  function Step(rooms: Rooms, k: Digest, now: int, retention: int, op: Op): (Rooms, Out) {
    var (r, out) := Apply(Get(rooms, k), now, retention, op);
    (Put(rooms, k, r), out)
  }

  /** The other rooms stay as they are, and this one becomes what the operation says. */
  lemma StepIsLocal(rooms: Rooms, k: Digest, now: int, retention: int, op: Op)
    ensures var (rooms', out) := Step(rooms, k, now, retention, op);
      var (r, res) := Apply(if k in rooms then Some(rooms[k]) else None, now, retention, op);
      && out == res && (k in rooms' <==> r.Some?) && (k in rooms' ==> rooms'[k] == r.value)
      && forall j :: j != k ==> (j in rooms' <==> j in rooms) && (j in rooms ==> rooms'[j] == rooms[j])
  {}

  lemma PutBack(rooms: Rooms, k: Digest)
    ensures Put(rooms, k, Get(rooms, k)) == rooms
  {}

  /** The two ways a step can end: refused with nothing changed, or one room replaced. */
  lemma StepRefused(rooms: Rooms, k: Digest, now: int, retention: int, op: Op, out: Out)
    requires Apply(Get(rooms, k), now, retention, op) == (Get(rooms, k), out)
    ensures Step(rooms, k, now, retention, op) == (rooms, out)
  {
    PutBack(rooms, k);
  }

  lemma StepTaken(rooms: Rooms, k: Digest, now: int, retention: int, op: Op, r: Room, out: Out)
    requires k in rooms && Apply(Some(rooms[k]), now, retention, op) == (Some(r), out)
    ensures Step(rooms, k, now, retention, op) == (rooms[k := r], out)
  {}

  /** Every room has been purged but those still to come. */
  ghost predicate PurgedBut(before: Rooms, view: Rooms, rest: set<Digest>, now: int, retention: int) {
    && (forall k :: k in rest ==> k in before && k in view && view[k] == before[k])
    && (forall k :: k !in rest ==> Get(view, k) == S.Purge(Get(before, k), now, retention))
  }

  lemma PurgeOneMore(before: Rooms, view: Rooms, view': Rooms, rest: set<Digest>, k: Digest, now: int, retention: int)
    requires PurgedBut(before, view, rest, now, retention) && k in rest
    requires view' == Put(view, k, S.Purge(Some(view[k]), now, retention))
    ensures PurgedBut(before, view', rest - {k}, now, retention)
  {}

  class Store {
    const retention: int
    var rooms: map<Digest, RoomEntry>
    /** The state file: what a restart would load. */
    var disk: Rooms
    /** The rooms and their requests. */
    ghost var Repr: set<object>

    constructor (retention: int)
      ensures Valid() && View() == map[] && disk == map[] && this.retention == retention && Repr == {}
    {
      this.retention, rooms, disk, Repr := retention, map[], map[], {};
    }

    ghost predicate Valid()
      reads `rooms, `Repr, Repr
    {
      this !in Repr && forall k :: k in rooms ==> rooms[k] in Repr && Holds(k)
    }

    /** Room k is filed under its own key, with its requests. */
    ghost predicate Holds(k: Digest)
      requires k in rooms
      reads `rooms, `Repr, rooms[k]
    {
      rooms[k].key == k && rooms[k].requests.Values <= Repr && rooms[k].Valid()
    }

    ghost predicate HoldsAs(j: Digest, r: Room)
      requires j in rooms
      reads `rooms, `Repr, rooms[j], rooms[j].requests.Values
    {
      rooms[j] in Repr && Holds(j) && rooms[j].Val() == r
    }

    ghost function View(): Rooms
      requires Valid()
      reads `rooms, `Repr, Repr
    {
      map k | k in rooms :: rooms[k].Val()
    }

    lemma OneRoomChanged(k: Digest, before: Rooms)
      requires Valid() && k in rooms && before.Keys == rooms.Keys
      requires forall j :: j in rooms && j != k ==> rooms[j].Val() == before[j]
      ensures View() == before[k := rooms[k].Val()]
    {}

    lemma SameRooms(before: Rooms)
      requires this !in Repr && before.Keys == rooms.Keys
      requires forall j :: j in rooms ==> HoldsAs(j, before[j])
      ensures Valid() && View() == before
    {}

    /** Takes the requests of the changed room k into the fold. */
    ghost method Refile(k: Digest, before: Rooms)
      requires this !in Repr && k in rooms && before.Keys == rooms.Keys
      requires rooms[k].key == k && rooms[k] in Repr && rooms[k].Valid()
      requires forall j :: j in rooms && j != k ==> HoldsAs(j, before[j])
      modifies `Repr
      ensures Valid() && Repr == old(Repr) + rooms[k].requests.Values
      ensures View() == before[k := rooms[k].Val()] && rooms[k].Val() == old(rooms[k].Val())
    {
      Repr := Repr + rooms[k].requests.Values;
      assert forall j :: j in rooms && j != k ==> HoldsAs(j, before[j]);
      OneRoomChanged(k, before);
    }

    /** Writes the whole state. */
    method Save()
      requires Valid()
      modifies `disk
      ensures Valid() && View() == old(View()) && disk == View()
    {
      ghost var before := View();
      disk := map k | k in rooms :: rooms[k].Val();
      assert forall j :: j in rooms ==> HoldsAs(j, before[j]);
      SameRooms(before);
    }

    method SubmitIn(k: Digest, name: string, pub: string, now: int) returns (res: Result<Request>)
      requires Valid() && k in rooms && Codec.ValidPub(pub)
      modifies `Repr, Repr
      ensures Valid() && fresh(Repr - old(Repr)) && rooms == old(rooms)
      ensures View() == old(View())[k := rooms[k].Val()]
      ensures (Some(rooms[k].Val()), res) == S.Submit(Some(old(rooms[k].Val())), now, name, pub)
    {
      ghost var before := View();
      res := rooms[k].Submit(now, name, pub);
      Refile(k, before);
    }

    method Submit(roomID: string, name: string, pub: string, now: int) returns (res: Result<Request>)
      requires Valid() && disk == View()
      modifies this, Repr
      ensures Valid() && fresh(Repr - old(Repr)) && disk == View()
      ensures (View(), Answered(res)) == Step(old(View()), Sha256(roomID), now, retention, SubmitOp(name, pub))
    {
      var k := Sha256(roomID);
      ghost var before, op := View(), SubmitOp(name, pub);
      if !Codec.ValidPub(pub) {
        StepRefused(before, k, now, retention, op, Answered(Failure(Invalid)));
        return Failure(Invalid);
      }
      if k !in rooms {
        StepRefused(before, k, now, retention, op, Answered(Failure(NotFound)));
        return Failure(NotFound);
      }
      res := SubmitIn(k, name, pub, now);
      StepTaken(before, k, now, retention, op, rooms[k].Val(), Answered(res));
      Save();
    }

    method AddMessageIn(k: Digest, id: Digest, msgId: string, data: string, now: int) returns (res: Result<JoinMessage>)
      requires Valid() && k in rooms && ValidMessage(msgId, data)
      modifies `Repr, Repr
      ensures Valid() && fresh(Repr - old(Repr)) && rooms == old(rooms)
      ensures View() == old(View())[k := rooms[k].Val()]
      ensures (Some(rooms[k].Val()), res) == S.AddMessage(Some(old(rooms[k].Val())), now, id, msgId, data)
    {
      ghost var before := View();
      res := rooms[k].AddMessage(now, id, msgId, data);
      Refile(k, before);
    }

    method AddMessage(roomID: string, id: Digest, msgId: string, data: string, now: int)
      returns (res: Result<JoinMessage>)
      requires Valid() && disk == View()
      modifies this, Repr
      ensures Valid() && fresh(Repr - old(Repr)) && disk == View()
      ensures (View(), Posted(res)) == Step(old(View()), Sha256(roomID), now, retention, MessageOp(id, msgId, data))
    {
      var k := Sha256(roomID);
      ghost var before, op := View(), MessageOp(id, msgId, data);
      if !ValidMessage(msgId, data) {
        StepRefused(before, k, now, retention, op, Posted(Failure(Invalid)));
        return Failure(Invalid);
      }
      if k !in rooms {
        StepRefused(before, k, now, retention, op, Posted(Failure(NotFound)));
        return Failure(NotFound);
      }
      res := AddMessageIn(k, id, msgId, data, now);
      StepTaken(before, k, now, retention, op, rooms[k].Val(), Posted(res));
      Save();
    }

    method DecideIn(k: Digest, id: Digest, v: Verdict, now: int) returns (res: Result<Request>)
      requires Valid() && k in rooms && ValidVerdict(v)
      modifies `Repr, Repr
      ensures Valid() && fresh(Repr - old(Repr)) && rooms == old(rooms)
      ensures View() == old(View())[k := rooms[k].Val()]
      ensures (Some(rooms[k].Val()), res) == S.Decide(Some(old(rooms[k].Val())), now, id, v)
    {
      ghost var before := View();
      res := rooms[k].Decide(now, id, v);
      Refile(k, before);
    }

    /** Approve and Reject. */
    method Decide(roomID: string, id: Digest, v: Verdict, now: int) returns (res: Result<Request>)
      requires Valid() && disk == View()
      modifies this, Repr
      ensures Valid() && fresh(Repr - old(Repr)) && disk == View()
      ensures (View(), Answered(res)) == Step(old(View()), Sha256(roomID), now, retention, DecideOp(id, v))
    {
      var k := Sha256(roomID);
      ghost var before, op := View(), DecideOp(id, v);
      if !ValidVerdict(v) {
        StepRefused(before, k, now, retention, op, Answered(Failure(Invalid)));
        return Failure(Invalid);
      }
      if k !in rooms {
        StepRefused(before, k, now, retention, op, Answered(Failure(NotFound)));
        return Failure(NotFound);
      }
      res := DecideIn(k, id, v, now);
      StepTaken(before, k, now, retention, op, rooms[k].Val(), Answered(res));
      Save();
    }

    method DoneIn(k: Digest, id: Digest)
      requires Valid() && k in rooms
      modifies `Repr, Repr
      ensures Valid() && fresh(Repr - old(Repr)) && rooms == old(rooms)
      ensures View() == old(View())[k := rooms[k].Val()]
      ensures Some(rooms[k].Val()) == S.Done(Some(old(rooms[k].Val())), id)
    {
      ghost var before := View();
      var _ := rooms[k].Done(id);
      Refile(k, before);
    }

    method Done(roomID: string, id: Digest)
      requires Valid() && disk == View()
      modifies this, Repr
      ensures Valid() && fresh(Repr - old(Repr)) && disk == View()
      ensures (View(), Silent) == Step(old(View()), Sha256(roomID), 0, retention, DoneOp(id))
    {
      var k := Sha256(roomID);
      ghost var before, op := View(), DoneOp(id);
      if k !in rooms {
        StepRefused(before, k, 0, retention, op, Silent);
        return;
      }
      DoneIn(k, id);
      StepTaken(before, k, 0, retention, op, rooms[k].Val(), Silent);
      Save();
    }

    method ClaimIn(k: Digest, inbox: string, now: int)
      requires Valid() && k in rooms
      modifies `Repr, Repr
      ensures Valid() && fresh(Repr - old(Repr)) && rooms == old(rooms)
      ensures View() == old(View())[k := rooms[k].Val()]
      ensures rooms[k].Val() == old(rooms[k].Val()).(lastActive := now,
          inboxPub := if old(rooms[k].inboxPub) == "" then inbox else old(rooms[k].inboxPub))
    {
      ghost var before := View();
      var r := rooms[k];
      r.lastActive := now;
      if r.inboxPub == "" { r.inboxPub := inbox; }
      assert r.Val().requests == before[k].requests;
      Refile(k, before);
    }

    method AddRoom(k: Digest, inbox: string, now: int)
      requires Valid() && k !in rooms
      modifies `rooms, `Repr
      ensures Valid() && fresh(Repr - old(Repr))
      ensures k in rooms && View() == old(View())[k := Room(now, now, inbox, map[])]
    {
      ghost var before := View();
      var r := new RoomEntry(k, now, inbox);
      rooms := rooms[k := r];
      Repr := Repr + {r};
      forall j | j in rooms && j != k ensures HoldsAs(j, before[j]) {
        assert old(Holds(j));
      }
      SameRooms(before[k := r.Val()]);
    }

    method Claim(roomID: string, create: bool, inboxPub: string, now: int) returns (ok: bool)
      requires Valid() && disk == View()
      modifies this, Repr
      ensures Valid() && fresh(Repr - old(Repr)) && disk == View()
      ensures (View(), Claimed(ok)) == Step(old(View()), Sha256(roomID), now, retention, ClaimOp(create, inboxPub))
    {
      var inbox := CleanPub(inboxPub);
      var k := Sha256(roomID);
      ghost var before, op := View(), ClaimOp(create, inboxPub);
      if k in rooms {
        if create {
          StepRefused(before, k, now, retention, op, Claimed(false));
          return false;
        }
        ClaimIn(k, inbox, now);
        StepTaken(before, k, now, retention, op, rooms[k].Val(), Claimed(true));
      } else {
        AddRoom(k, inbox, now);
      }
      Save();
      ok := true;
    }

    method GetInboxPub(roomID: string) returns (pub: string)
      requires Valid()
      ensures (View(), Inbox(pub)) == Step(View(), Sha256(roomID), 0, retention, InboxQuery)
      ensures pub == if Sha256(roomID) in View() then View()[Sha256(roomID)].inboxPub else ""
    {
      PutBack(View(), Sha256(roomID));
      var k := Sha256(roomID);
      pub := if k in rooms then rooms[k].inboxPub else "";
    }

    method RoomExists(roomID: string) returns (yes: bool)
      requires Valid()
      ensures (View(), Exists(yes)) == Step(View(), Sha256(roomID), 0, retention, ExistsQuery)
      ensures yes <==> Sha256(roomID) in View()
    {
      PutBack(View(), Sha256(roomID));
      yes := Sha256(roomID) in rooms;
    }

    method Pending(roomID: string, now: int) returns (out: seq<Request>)
      requires Valid()
      ensures IsPendingList(out, Get(View(), Sha256(roomID)), now)
      ensures forall i, j :: 0 <= i < j < |out| ==> out[i].created <= out[j].created && out[i].id != out[j].id
      ensures forall q :: q in out ==> q.status.Pending? && now - q.updated <= 7 * 24 * HOUR
    {
      var k := Sha256(roomID);
      if k !in rooms { return []; }
      out := rooms[k].PendingList(now);
    }

    method DropExpiredIn(k: Digest, now: int) returns (changed: bool)
      requires Valid() && k in rooms
      modifies `Repr, Repr
      ensures Valid() && fresh(Repr - old(Repr)) && rooms == old(rooms)
      ensures View() == old(View())[k := rooms[k].Val()]
      ensures rooms[k].Val() == S.DropExpired(old(rooms[k].Val()), now)
      ensures !changed ==> View() == old(View())
    {
      ghost var before := View();
      changed := rooms[k].DropExpired(now);
      Refile(k, before);
    }

    method DropRoom(k: Digest)
      requires Valid() && k in rooms
      modifies `rooms
      ensures Valid() && View() == old(View()) - {k} && rooms == old(rooms) - {k}
    {
      ghost var before := View();
      rooms := rooms - {k};
      assert forall j :: j in rooms ==> HoldsAs(j, before[j]);
      SameRooms(before - {k});
    }

    /** One turn of Purge's loop. */
    method PurgeRoom(k: Digest, now: int) returns (changed: bool)
      requires Valid() && k in rooms
      modifies `rooms, `Repr, Repr
      ensures Valid() && fresh(Repr - old(Repr))
      ensures View() == Put(old(View()), k, S.Purge(Some(old(View())[k]), now, retention))
      ensures !changed ==> View() == old(View())
    {
      ghost var before := View();
      if retention > 0 && now - rooms[k].lastActive > retention {
        DropRoom(k);
        changed := true;
      } else {
        changed := DropExpiredIn(k, now);
        assert View()[k] == S.DropExpired(before[k], now);
      }
    }

    /** Every room is purged as Purge prescribes; a stale room goes with all its requests. */
    method Purge(now: int)
      requires Valid() && disk == View()
      modifies this, Repr
      ensures Valid() && fresh(Repr - old(Repr)) && disk == View()
      ensures forall k :: Get(View(), k) == S.Purge(Get(old(View()), k), now, retention)
    {
      ghost var before := View();
      var rest := rooms.Keys;
      var changed := false;
      while rest != {}
        invariant Valid() && fresh(Repr - old(Repr)) && disk == before
        invariant PurgedBut(before, View(), rest, now, retention)
        invariant !changed ==> View() == before
        decreases rest
      {
        var k :| k in rest;
        ghost var view := View();
        var c := PurgeRoom(k, now);
        PurgeOneMore(before, view, View(), rest, k, now, retention);
        rest := rest - {k};
        changed := changed || c;
      }
      if changed { Save(); }
    }
  }
}
