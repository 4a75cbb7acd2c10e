/** The membership view of a connected client: folding the messages it is sent through
    its handler yields the other members of its room, at every moment of every run. */
module HubViews {
  import opened Wrappers
  import opened StoreSpec
  import opened Wire
  import opened HubSpec

  /** Beside each connection: the members it was told of when it joined, whether its
      welcome is enqueued, which of those members left before that, and the view folded
      from the messages it has taken. */
  datatype Book = Book(snapshot: seq<Id>, welcomed: bool, early: set<Id>, seen: set<Id>)

  datatype State = State(cap: nat, lines: Lines, books: map<Id, Book>, used: set<Id>)

  function Elems(s: seq<Id>): set<Id> { set i | i in s }

  /** The browser's handling of a message, as far as its set of room peers goes. */
  function Fold(view: set<Id>, m: Msg): set<Id> {
    match m
    case Welcome(_, members, _, _) => view + Elems(members)
    case PeerJoined(id) => view + {id}
    case PeerLeft(id) => view - {id}
    case _ => view
  }

  function FoldAll(view: set<Id>, ms: seq<Msg>): set<Id> {
    if ms == [] then view else Fold(FoldAll(view, ms[..|ms| - 1]), ms[|ms| - 1])
  }

  /** What the client will see once it has handled all that is queued for it. */
  function View(s: State, i: Id): set<Id>
    requires i in s.lines && i in s.books
  {
    FoldAll(s.books[i].seen, s.lines[i].queue)
  }

  predicate Membership(m: Msg) {
    m.Welcome? || m.PeerJoined? || m.PeerLeft?
  }

  datatype Event =
    | Joins(id: Id, room: string, snapshot: seq<Id>)
    | Greets(id: Id, known: bool, requests: seq<Request>)
    | Leaves(id: Id)
    | Forwards(id: Id, to: Id, msg: Msg)
    | Tells(ids: set<Id>, msg: Msg)
    | Takes(id: Id)
    | Files(id: Id, req: Option<Digest>)

  ghost predicate Enabled(s: State, e: Event) {
    match e
    case Joins(id, room, snapshot) =>
      id !in s.used && HasSpace(s.lines, s.cap, room) && Elems(snapshot) == Members(s.lines, room)
    case Greets(id, _, _) => id in s.lines && id in s.books && !s.books[id].welcomed
    case Leaves(id) => id in s.lines && id in s.books && s.books[id].welcomed
    case Forwards(id, _, msg) => id in s.lines && !Membership(msg)
    case Tells(_, msg) => !Membership(msg)
    case Takes(id) => id in s.lines && id in s.books && s.lines[id].queue != []
    case Files(id, _) => id in s.lines
  }

  /** Snapshot members of a connection still waiting for its welcome are recorded when
      they leave. */
  function MarkLeft(books: map<Id, Book>, gone: Id): map<Id, Book> {
    map i | i in books :: if !books[i].welcomed && gone in books[i].snapshot
                          then books[i].(early := books[i].early + {gone}) else books[i]
  }

  function Next(s: State, e: Event): State
    requires Enabled(s, e)
  {
    match e
    case Joins(id, room, snapshot) =>
      s.(lines := Join(s.lines, id, room), books := s.books[id := Book(snapshot, false, {}, {})], used := s.used + {id})
    case Greets(id, known, requests) =>
      s.(lines := Send(s.lines, {id}, Welcome(id, s.books[id].snapshot, known, requests)),
         books := s.books[id := s.books[id].(welcomed := true)])
    case Leaves(id) => s.(lines := Leave(s.lines, id), books := MarkLeft(s.books, id))
    case Forwards(id, to, msg) => s.(lines := Forward(s.lines, id, to, msg))
    case Tells(ids, msg) => s.(lines := Send(s.lines, ids, msg))
    case Takes(id) =>
      var l := s.lines[id];
      s.(lines := s.lines[id := l.(queue := l.queue[1..])],
         books := s.books[id := s.books[id].(seen := Fold(s.books[id].seen, l.queue[0]))])
    case Files(id, req) => s.(lines := s.lines[id := s.lines[id].(reqID := req)])
  }

  function Init(cap: nat): State { State(cap, map[], map[], {}) }

  ghost predicate Run(s: State, es: seq<Event>)
    decreases |es|
  {
    es == [] || (Enabled(s, es[0]) && Run(Next(s, es[0]), es[1..]))
  }

  function After(s: State, es: seq<Event>): State
    requires Run(s, es)
    decreases |es|
  {
    if es == [] then s else After(Next(s, es[0]), es[1..])
  }

  // ----- the invariant -----

  function Others(s: State, i: Id): set<Id>
    requires i in s.lines
  {
    Members(s.lines, s.lines[i].room) - {i}
  }

  /** Before the welcome: those who joined since.  After it: everyone, and those of the
      snapshot who had left in between. */
  function Expected(s: State, i: Id): set<Id>
    requires i in s.lines && i in s.books
  {
    var b := s.books[i];
    if b.welcomed then Others(s, i) + b.early else Others(s, i) - Elems(b.snapshot)
  }

  ghost predicate GoodBook(s: State, i: Id)
    requires i in s.lines && i in s.books
  {
    var b := s.books[i];
    && i !in Elems(b.snapshot)
    && b.early <= Elems(b.snapshot) <= s.used
    && b.early !! s.lines.Keys
    && (!b.welcomed ==> Elems(b.snapshot) <= Others(s, i) + b.early)
    && (!s.lines[i].kicked ==> View(s, i) == Expected(s, i))
  }

  ghost predicate Inv(s: State) {
    && s.lines.Keys <= s.books.Keys
    && s.lines.Keys <= s.used
    && forall i :: i in s.lines ==> GoodBook(s, i)
  }

  lemma FoldLast(view: set<Id>, ms: seq<Msg>, m: Msg)
    ensures FoldAll(view, ms + [m]) == Fold(FoldAll(view, ms), m)
  {
    assert (ms + [m])[..|ms|] == ms;
  }

  lemma {:induction false} FoldFirst(view: set<Id>, ms: seq<Msg>)
    requires ms != []
    ensures FoldAll(Fold(view, ms[0]), ms[1..]) == FoldAll(view, ms)
  {
    if |ms| > 1 {
      FoldFirst(view, ms[..|ms| - 1]);
      assert ms[1..][..|ms| - 2] == ms[..|ms| - 1][1..];
    }
  }

  /** An undropped connection took the message. */
  lemma Took(s: State, lines: Lines, to: set<Id>, m: Msg, i: Id)
    requires i in s.lines && i in s.books && lines == Send(s.lines, to, m) && !lines[i].kicked
    ensures !s.lines[i].kicked && lines[i].room == s.lines[i].room
    ensures FoldAll(s.books[i].seen, lines[i].queue) == if i in to then Fold(View(s, i), m) else View(s, i)
  {
    FoldLast(s.books[i].seen, s.lines[i].queue, m);
  }

  lemma SendKeepsRooms(lines: Lines, to: set<Id>, m: Msg, room: string)
    ensures Send(lines, to, m).Keys == lines.Keys
    ensures Members(Send(lines, to, m), room) == Members(lines, room)
  {}

  lemma TellKeepsBooks(s: State, to: set<Id>, m: Msg)
    requires Inv(s) && !Membership(m)
    ensures Inv(s.(lines := Send(s.lines, to, m)))
  {
    var s' := s.(lines := Send(s.lines, to, m));
    forall i | i in s'.lines ensures GoodBook(s', i) {
      assert GoodBook(s, i);
      SendKeepsRooms(s.lines, to, m, s.lines[i].room);
      if !s'.lines[i].kicked { Took(s, s'.lines, to, m, i); }
    }
  }

  lemma NewcomerBook(s: State, e: Event)
    requires Inv(s) && e.Joins? && Enabled(s, e)
    ensures GoodBook(Next(s, e), e.id)
  {
    var s' := Next(s, e);
    assert Others(s', e.id) == Members(s.lines, e.room);
  }

  lemma JoinAddsToView(s: State, s': State, e: Event, i: Id)
    requires Inv(s) && e.Joins? && Enabled(s, e) && s' == Next(s, e) && i in s.lines && !s'.lines[i].kicked
    ensures !s.lines[i].kicked
    ensures View(s', i) == if s.lines[i].room == e.room then View(s, i) + {e.id} else View(s, i)
  {
    var to := Members(s.lines, e.room);
    Took(s, Send(s.lines, to, PeerJoined(e.id)), to, PeerJoined(e.id), i);
  }

  lemma JoinAddsToOthers(s: State, s': State, e: Event, i: Id)
    requires Inv(s) && e.Joins? && Enabled(s, e) && s' == Next(s, e) && i in s.lines
    ensures Others(s', i) == if s.lines[i].room == e.room then Others(s, i) + {e.id} else Others(s, i)
  {}

  lemma JoinKeepsBook(s: State, s': State, e: Event, i: Id)
    requires Inv(s) && e.Joins? && Enabled(s, e) && s' == Next(s, e) && i in s.lines
    ensures GoodBook(s', i)
  {
    assert GoodBook(s, i);
    JoinAddsToOthers(s, s', e, i);
    if !s'.lines[i].kicked { JoinAddsToView(s, s', e, i); }
  }

  lemma GreetKeepsBooks(s: State, e: Event)
    requires Inv(s) && e.Greets? && Enabled(s, e)
    ensures Inv(Next(s, e))
  {
    var s' := Next(s, e);
    var m := Welcome(e.id, s.books[e.id].snapshot, e.known, e.requests);
    forall i | i in s'.lines ensures GoodBook(s', i) {
      assert GoodBook(s, i);
      SendKeepsRooms(s.lines, {e.id}, m, s.lines[i].room);
      if !s'.lines[i].kicked { Took(s, s'.lines, {e.id}, m, i); }
    }
  }

  lemma LeaveKeepsBook(s: State, s': State, e: Event, i: Id)
    requires Inv(s) && e.Leaves? && Enabled(s, e) && s' == Next(s, e) && i in s'.lines
    ensures GoodBook(s', i)
  {
    var rest := s.lines - {e.id};
    var to := Members(rest, s.lines[e.id].room);
    assert GoodBook(s, i);
    assert Others(s', i) == Others(s, i) - {e.id};
    if !s'.lines[i].kicked {
      var t := s.(lines := rest);
      Took(t, s'.lines, to, PeerLeft(e.id), i);
      assert View(t, i) == View(s, i);
      assert View(s', i) == if i in to then Fold(View(s, i), PeerLeft(e.id)) else View(s, i);
    }
  }

  lemma TakeKeepsBooks(s: State, e: Event)
    requires Inv(s) && e.Takes? && Enabled(s, e)
    ensures Inv(Next(s, e))
  {
    var s' := Next(s, e);
    FoldFirst(s.books[e.id].seen, s.lines[e.id].queue);
    forall i | i in s'.lines ensures GoodBook(s', i) {
      assert GoodBook(s, i);
      assert Others(s', i) == Others(s, i);
    }
  }

  lemma FileKeepsBooks(s: State, e: Event)
    requires Inv(s) && e.Files? && Enabled(s, e)
    ensures Inv(Next(s, e))
  {
    var s' := Next(s, e);
    forall i | i in s'.lines ensures GoodBook(s', i) {
      assert GoodBook(s, i);
      assert Others(s', i) == Others(s, i);
    }
  }

  lemma StepKeepsBooks(s: State, e: Event)
    requires Inv(s) && Enabled(s, e)
    ensures Inv(Next(s, e))
  {
    match e
    case Joins(_, _, _) =>
      NewcomerBook(s, e);
      forall i | i in s.lines { JoinKeepsBook(s, Next(s, e), e, i); }
    case Greets(_, _, _) => GreetKeepsBooks(s, e);
    case Leaves(_) =>
      forall i | i in Next(s, e).lines { LeaveKeepsBook(s, Next(s, e), e, i); }
    case Forwards(id, to, msg) => TellKeepsBooks(s, Targets(s.lines, id, to), msg);
    case Tells(ids, msg) => TellKeepsBooks(s, ids, msg);
    case Takes(_) => TakeKeepsBooks(s, e);
    case Files(_, _) => FileKeepsBooks(s, e);
  }

  lemma {:induction false} RunKeepsBooks(s: State, es: seq<Event>)
    requires Inv(s) && Run(s, es)
    ensures Inv(After(s, es))
    decreases |es|
  {
    if es != [] {
      StepKeepsBooks(s, es[0]);
      RunKeepsBooks(Next(s, es[0]), es[1..]);
    }
  }

  /** Main result: in every reachable state, a connection that is not being dropped and
      whose welcome is enqueued will see exactly the other members of its room, and
      besides them only the members it was told of at its join that left before the
      welcome was enqueued. */
  lemma MembershipView(cap: nat, es: seq<Event>, i: Id)
    requires Run(Init(cap), es)
    requires i in After(Init(cap), es).lines && !After(Init(cap), es).lines[i].kicked
    ensures var s := After(Init(cap), es);
      && i in s.books
      && (s.books[i].welcomed ==> View(s, i) == Others(s, i) + s.books[i].early)
      && s.books[i].early <= Elems(s.books[i].snapshot)
      && s.books[i].early !! s.lines.Keys
  {
    RunKeepsBooks(Init(cap), es);
    assert GoodBook(After(Init(cap), es), i);
  }

  // ----- the extra members are real -----

  function Alone(room: string, a: Id, welcomed: bool): State {
    State(2, map[a := Line(room, if welcomed then [Welcome(a, [], false, [])] else [], false, None)],
          map[a := Book([], welcomed, {}, {})], {a})
  }

  lemma FirstJoins(room: string, a: Id)
    ensures Enabled(Init(2), Joins(a, room, [])) && Next(Init(2), Joins(a, room, [])) == Alone(room, a, false)
  {
    assert Members(Init(2).lines, room) == {};
  }

  lemma FirstGreeted(room: string, a: Id)
    ensures Enabled(Alone(room, a, false), Greets(a, false, []))
    ensures Next(Alone(room, a, false), Greets(a, false, [])) == Alone(room, a, true)
  {
    assert [] + [Welcome(a, [], false, [])] == [Welcome(a, [], false, [])];
  }

  lemma SecondJoins(room: string, a: Id, b: Id, s: State)
    requires a != b && s == Alone(room, a, true)
    ensures Enabled(s, Joins(b, room, [a]))
    ensures var s' := Next(s, Joins(b, room, [a]));
      && s'.lines.Keys == {a, b} && s'.lines[b] == NewLine(room) && s'.lines[a].room == room
      && s'.books == map[a := Book([], true, {}, {}), b := Book([a], false, {}, {})]
  {
    assert Members(s.lines, room) == {a};
    assert Elems([a]) == {a};
  }

  lemma FirstLeaves(room: string, a: Id, b: Id, s: State)
    requires a != b && s.lines.Keys == {a, b} && s.lines[b] == NewLine(room) && s.lines[a].room == room
    requires s.books == map[a := Book([], true, {}, {}), b := Book([a], false, {}, {})]
    ensures Enabled(s, Leaves(a))
    ensures var s' := Next(s, Leaves(a));
      && s'.lines == map[b := Line(room, [PeerLeft(a)], false, None)]
      && b in s'.books && s'.books[b] == Book([a], false, {a}, {})
  {
    assert Members(s.lines - {a}, room) == {b};
    assert Enqueue(s.lines[b], PeerLeft(a)) == Line(room, [PeerLeft(a)], false, None);
    assert Next(s, Leaves(a)).lines == map[b := Line(room, [PeerLeft(a)], false, None)];
  }

  lemma SecondGreeted(room: string, a: Id, b: Id, s: State)
    requires s.lines == map[b := Line(room, [PeerLeft(a)], false, None)]
    requires b in s.books && s.books[b] == Book([a], false, {a}, {})
    ensures Enabled(s, Greets(b, false, []))
    ensures var s' := Next(s, Greets(b, false, []));
      && s'.lines.Keys == {b} && b in s'.books && !s'.lines[b].kicked && View(s', b) == {a}
  {
    var s' := Next(s, Greets(b, false, []));
    assert s'.lines[b].queue == [PeerLeft(a)] + [Welcome(b, [a], false, [])];
    FoldLast({}, [PeerLeft(a)], Welcome(b, [a], false, []));
    FoldLast({}, [], PeerLeft(a));
    assert [] + [PeerLeft(a)] == [PeerLeft(a)];
    assert Elems([a]) == {a};
  }

  lemma RunStarts(s: State, e: Event, es: seq<Event>)
    requires Enabled(s, e) && Run(Next(s, e), es)
    ensures Run(s, [e] + es) && After(s, [e] + es) == After(Next(s, e), es)
  {
    assert ([e] + es)[1..] == es;
  }

  /** The extra members do occur: one can leave between a join and its welcome, and the
      newcomer, now alone in the room, lists it for ever. */
  lemma GhostMember(room: string, a: Id, b: Id) returns (es: seq<Event>)
    requires a != b
    ensures Run(Init(2), es)
    ensures var s := After(Init(2), es);
      s.lines.Keys == {b} && b in s.books && !s.lines[b].kicked && View(s, b) == {a}
  {
    var e0, e1, e2, e3, e4 :=
      Joins(a, room, []), Greets(a, false, []), Joins(b, room, [a]), Leaves(a), Greets(b, false, []);
    FirstJoins(room, a);
    FirstGreeted(room, a);
    var s2 := Alone(room, a, true);
    SecondJoins(room, a, b, s2);
    var s3 := Next(s2, e2);
    FirstLeaves(room, a, b, s3);
    var s4 := Next(s3, e3);
    SecondGreeted(room, a, b, s4);
    RunStarts(s4, e4, []);
    RunStarts(s3, e3, [e4] + []);
    RunStarts(s2, e2, [e3] + ([e4] + []));
    RunStarts(Alone(room, a, false), e1, [e2] + ([e3] + ([e4] + [])));
    es := [e0] + ([e1] + ([e2] + ([e3] + ([e4] + []))));
    RunStarts(Init(2), e0, [e1] + ([e2] + ([e3] + ([e4] + []))));
  }
}
