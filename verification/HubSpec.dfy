/** What the hub does to its connections: each has a room, an outgoing queue of bounded
    length, and a flag saying it must be dropped. */
module HubSpec {
  import opened Wrappers
  import opened StoreSpec
  import opened Wire

  const SEND_QUEUE := 512
  const DEFAULT_MAX_PEERS := 16

  datatype Line = Line(room: string, queue: seq<Msg>, kicked: bool, reqID: Option<Digest>)

  type Lines = map<Id, Line>

  /** Never blocks: a connection whose queue is full is dropped instead. */
  function Enqueue(l: Line, m: Msg): Line {
    if |l.queue| < SEND_QUEUE then l.(queue := l.queue + [m]) else l.(kicked := true)
  }

  // ----- what a queue promises -----

  /** The hub enqueues; the connection's writer takes from the front. */
  datatype Use = Puts(msg: Msg) | Takes

  /** The connection after some uses, and what its writer took. */
  function Used(l: Line, us: seq<Use>): (Line, seq<Msg>) {
    if us == [] then (l, [])
    else
      var (l1, got) := Used(l, us[..|us| - 1]);
      match us[|us| - 1]
      case Puts(m) => (Enqueue(l1, m), got)
      case Takes => if l1.queue == [] then (l1, got) else (l1.(queue := l1.queue[1..]), got + [l1.queue[0]])
  }

  function PutAll(us: seq<Use>): seq<Msg> {
    if us == [] then []
    else PutAll(us[..|us| - 1]) + (if us[|us| - 1].Puts? then [us[|us| - 1].msg] else [])
  }

  /** Some message found the queue full. */
  predicate Overran(l: Line, us: seq<Use>) {
    exists i :: 0 <= i < |us| && us[i].Puts? && |Used(l, us[..i]).0.queue| >= SEND_QUEUE
  }

  /** Of a connection not marked to be dropped, what was taken and what still waits is all
      that was ever enqueued, in order; it is marked exactly if a message found no room. */
  lemma {:induction false} UndroppedGetsAll(l: Line, us: seq<Use>)
    requires |l.queue| <= SEND_QUEUE && !l.kicked
    ensures var (l', got) := Used(l, us);
      && |l'.queue| <= SEND_QUEUE
      && (l'.kicked <==> Overran(l, us))
      && (!l'.kicked ==> got + l'.queue == l.queue + PutAll(us))
  {
    if us != [] {
      var n := |us| - 1;
      UndroppedGetsAll(l, us[..n]);
      OverranNext(l, us);
      var (l1, got) := Used(l, us[..n]);
      if us[n].Takes? && l1.queue != [] {
        assert got + [l1.queue[0]] + l1.queue[1..] == got + l1.queue;
      } else if us[n].Puts? {
        assert got + (l1.queue + [us[n].msg]) == (got + l1.queue) + [us[n].msg];
      }
    }
  }

  lemma OverranNext(l: Line, us: seq<Use>)
    requires us != []
    ensures var n := |us| - 1;
      Overran(l, us) <==> Overran(l, us[..n]) || (us[n].Puts? && |Used(l, us[..n]).0.queue| >= SEND_QUEUE)
  {
    var n := |us| - 1;
    assert forall i :: 0 <= i < n ==> us[..n][i] == us[i] && us[..n][..i] == us[..i];
  }

  function Members(lines: Lines, room: string): set<Id> {
    set i | i in lines && lines[i].room == room
  }

  function Send(lines: Lines, to: set<Id>, m: Msg): Lines {
    map i | i in lines :: if i in to then Enqueue(lines[i], m) else lines[i]
  }

  function NewLine(room: string): Line {
    Line(room, [], false, None)
  }

  predicate HasSpace(lines: Lines, cap: nat, room: string) {
    |Members(lines, room)| < cap
  }

  function Join(lines: Lines, id: Id, room: string): Lines {
    Send(lines, Members(lines, room), PeerJoined(id))[id := NewLine(room)]
  }

  function Leave(lines: Lines, id: Id): Lines
    requires id in lines
  {
    Send(lines - {id}, Members(lines - {id}, lines[id].room), PeerLeft(id))
  }

  /** A message to one peer reaches only a member of the sender's room; to "", all others. */
  function Targets(lines: Lines, from: Id, to: Id): set<Id>
    requires from in lines
  {
    set i | i in Members(lines, lines[from].room) && i != from && (to == "" || i == to)
  }

  function Forward(lines: Lines, from: Id, to: Id, m: Msg): Lines
    requires from in lines
  {
    Send(lines, Targets(lines, from, to), m)
  }

  function Applicants(lines: Lines, room: string, q: Digest): set<Id> {
    set i | i in Members(lines, room) && lines[i].reqID == Some(q)
  }

  // ----- who gains what -----

  /** The line gained these messages, or as many as it had room for and is to be dropped. */
  predicate Gains(l: Line, l': Line, ms: seq<Msg>) {
    var free := if |l.queue| >= 512 then 0 else 512 - |l.queue|;
    && l'.room == l.room
    && (if |ms| <= free then l'.queue == l.queue + ms && l'.kicked == l.kicked
        else l'.queue == l.queue + ms[..free] && l'.kicked)
  }

  lemma GainsTwice(l: Line, l1: Line, l2: Line, ms: seq<Msg>, more: seq<Msg>)
    requires Gains(l, l1, ms) && Gains(l1, l2, more)
    ensures Gains(l, l2, ms + more)
  {
    var free := if |l.queue| >= 512 then 0 else 512 - |l.queue|;
    if |ms| + |more| <= free {
      assert l.queue + (ms + more) == (l.queue + ms) + more;
    } else if |ms| <= free {
      assert (ms + more)[..free] == ms + more[..free - |ms|];
      assert l.queue + (ms + more)[..free] == (l.queue + ms) + more[..free - |ms|];
    } else {
      assert (ms + more)[..free] == ms[..free];
      assert more[..0] == [] && l1.queue + [] == l1.queue;
    }
  }

  lemma SentOnce(lines: Lines, to: set<Id>, m: Msg, i: Id)
    requires i in lines
    ensures Gains(lines[i], Send(lines, to, m)[i], if i in to then [m] else [])
    ensures Send(lines, to, m)[i].reqID == lines[i].reqID
  {
    assert [m][..0] == [] && lines[i].queue + [] == lines[i].queue;
  }

  /** A newcomer starts with an empty queue, and everyone in its room gains one notice of it. */
  lemma JoinTells(lines: Lines, id: Id, room: string)
    requires id !in lines
    ensures var lines' := Join(lines, id, room);
      && lines'.Keys == lines.Keys + {id} && lines'[id] == Line(room, [], false, None)
      && forall i :: i in lines ==>
        Gains(lines[i], lines'[i], if lines[i].room == room then [PeerJoined(id)] else []) && lines'[i].reqID == lines[i].reqID
  {
    forall i | i in lines
      ensures Gains(lines[i], Join(lines, id, room)[i], if lines[i].room == room then [PeerJoined(id)] else [])
    {
      SentOnce(lines, Members(lines, room), PeerJoined(id), i);
    }
  }

  /** Of a connection that goes, nothing stays but one notice to everyone else in its room. */
  lemma LeaveTells(lines: Lines, id: Id)
    requires id in lines
    ensures var lines' := Leave(lines, id);
      && lines'.Keys == lines.Keys - {id}
      && forall i :: i in lines && i != id ==>
        && Gains(lines[i], lines'[i], if lines[i].room == lines[id].room then [PeerLeft(id)] else [])
        && lines'[i].reqID == lines[i].reqID
  {
    forall i | i in lines && i != id
      ensures Gains(lines[i], Leave(lines, id)[i], if lines[i].room == lines[id].room then [PeerLeft(id)] else [])
    {
      SentOnce(lines - {id}, Members(lines - {id}, lines[id].room), PeerLeft(id), i);
    }
  }

  /** A message passed on reaches the one it names, or everyone if it names none, in the
      sender's room and never the sender. */
  lemma ForwardTells(lines: Lines, from: Id, to: Id, m: Msg)
    requires from in lines
    ensures var lines' := Forward(lines, from, to, m);
      && lines'.Keys == lines.Keys
      && forall i :: i in lines ==>
        && Gains(lines[i], lines'[i],
                 if i != from && lines[i].room == lines[from].room && (to == "" || to == i) then [m] else [])
        && lines'[i].reqID == lines[i].reqID
  {
    forall i | i in lines
      ensures Gains(lines[i], Forward(lines, from, to, m)[i],
                    if i != from && lines[i].room == lines[from].room && (to == "" || to == i) then [m] else [])
    {
      SentOnce(lines, Targets(lines, from, to), m, i);
    }
  }

  /** So does what is told to a room, or to the applicants of a request in it. */
  lemma RoomTells(lines: Lines, room: string, q: Digest, m: Msg)
    ensures forall i :: i in lines ==>
      && Gains(lines[i], Send(lines, Members(lines, room), m)[i], if lines[i].room == room then [m] else [])
      && Gains(lines[i], Send(lines, Applicants(lines, room, q), m)[i],
               if lines[i].room == room && lines[i].reqID == Some(q) then [m] else [])
  {
    forall i | i in lines
      ensures Gains(lines[i], Send(lines, Members(lines, room), m)[i], if lines[i].room == room then [m] else [])
      ensures Gains(lines[i], Send(lines, Applicants(lines, room, q), m)[i],
                    if lines[i].room == room && lines[i].reqID == Some(q) then [m] else [])
    {
      SentOnce(lines, Members(lines, room), m, i);
      SentOnce(lines, Applicants(lines, room, q), m, i);
    }
  }

  /** There is space for one more below the cap. */
  lemma SpaceIff(lines: Lines, cap: nat, room: string)
    ensures HasSpace(lines, cap, room) <==> |set i | i in lines && lines[i].room == room| < cap
  {
    assert Members(lines, room) == set i | i in lines && lines[i].room == room;
  }
}
